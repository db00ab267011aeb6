/**
 * The logic of src/components/FileUploader.tsx: which files are accepted,
 * how a text file becomes inquiries (one per non-blank line), and the upload
 * handler, which hands on the inquiries of a file only when there are some.
 */
module Uploader {
  import opened Types
  import opened JsStrings
  import opened Csv

  /** Only names ending in ".csv" or ".txt" are read. */
  predicate Accepted(name: string)
  {
    EndsWith(name, ".csv") || EndsWith(name, ".txt")
  }

  /** The lines that are not blank, in their order. */
  function NonBlank(lines: seq<string>): (kept: seq<string>)
    ensures |kept| <= |lines|
    ensures forall k :: 0 <= k < |kept| ==> kept[k] in lines && !Blank(kept[k])
  {
    if lines == [] then []
    else
      var last := lines[|lines| - 1];
      NonBlank(lines[..|lines| - 1]) + (if Blank(last) then [] else [last])
  }

  /** The id of the inquiry from the k-th non-blank line of a text file. */
  function TxtId(k: nat): string
  {
    "txt-" + NatToString(k)
  }

  /** A text file: one inquiry per non-blank line, numbered from 0, its text the trimmed line. */
  function TxtInquiries(content: string): seq<Inquiry>
  {
    var lines := NonBlank(Split(content, '\n'));
    seq(|lines|, k requires 0 <= k < |lines| => Inquiry(TxtId(k), Trim(lines[k]), None, None, None))
  }

  /** The inquiries of a file: CSV parsing for ".csv", one per line otherwise. */
  function FileInquiries(name: string, content: string): seq<Inquiry>
  {
    if EndsWith(name, ".csv") then CsvInquiries(content) else TxtInquiries(content)
  }

  /** Keeping the non-blank lines of a list without blank lines keeps them all. */
  lemma {:induction false} NonBlankKeepsAll(lines: seq<string>)
    requires forall k :: 0 <= k < |lines| ==> !Blank(lines[k])
    ensures NonBlank(lines) == lines
  {
    if lines != [] {
      NonBlankKeepsAll(lines[..|lines| - 1]);
      assert lines[..|lines| - 1] + [lines[|lines| - 1]] == lines;
    }
  }

  /** Nothing is kept exactly when every line is blank. */
  lemma {:induction false} NonBlankEmpty(lines: seq<string>)
    ensures NonBlank(lines) == [] <==> forall k :: 0 <= k < |lines| ==> Blank(lines[k])
  {
    if lines != [] {
      NonBlankEmpty(lines[..|lines| - 1]);
      if NonBlank(lines) == [] {
        forall k | 0 <= k < |lines| ensures Blank(lines[k]) {
          if k < |lines| - 1 {
            assert lines[k] == lines[..|lines| - 1][k];
          }
        }
      } else {
        assert NonBlank(lines)[0] in lines;
      }
    }
  }

  /** Lines joined with line feeds are blank exactly when every line is. */
  lemma {:induction false} JoinBlank(parts: seq<string>)
    ensures Blank(Join(parts, '\n')) <==> forall k :: 0 <= k < |parts| ==> Blank(parts[k])
  {
    if |parts| > 1 {
      JoinBlank(parts[1..]);
      var rest := Join(parts[1..], '\n');
      var s := parts[0] + ['\n'] + rest;
      assert Join(parts, '\n') == s;
      assert forall i :: 0 <= i < |parts[0]| ==> s[i] == parts[0][i];
      assert forall i :: 0 <= i < |rest| ==> s[|parts[0]| + 1 + i] == rest[i];
      if Blank(s) {
        assert Blank(parts[0]);
        assert Blank(rest);
        forall k | 0 <= k < |parts| ensures Blank(parts[k]) {
          if k > 0 {
            assert parts[k] == parts[1..][k - 1];
          }
        }
      }
      if forall k :: 0 <= k < |parts| ==> Blank(parts[k]) {
        assert Blank(parts[0]);
        assert forall k :: 0 <= k < |parts[1..]| ==> Blank(parts[1..][k]);
        forall i | 0 <= i < |s| ensures IsSpace(s[i]) {
          if i > |parts[0]| {
            assert s[i] == rest[i - |parts[0]| - 1];
          }
        }
      }
    }
  }

  /**
   * The inquiries of a text file: one per non-blank line, in order, with id
   * "txt-k" for the k-th, a non-empty text that is already trimmed, and no
   * customer, date or source file.
   */
  lemma TxtInquiriesShape(content: string)
    ensures var lines := NonBlank(Split(content, '\n'));
      && |TxtInquiries(content)| == |lines|
      && forall k :: 0 <= k < |lines| ==>
        var q := TxtInquiries(content)[k];
        && q.id == TxtId(k)
        && q.text == Trim(lines[k]) && q.text != "" && Trim(q.text) == q.text
        && q.customer.None? && q.date.None? && q.sourceFile.None?
  {
    var lines := NonBlank(Split(content, '\n'));
    forall k | 0 <= k < |lines| ensures Trim(lines[k]) != "" && Trim(Trim(lines[k])) == Trim(lines[k]) {
      BlankTrimsToNothing(lines[k]);
      TrimIdempotent(lines[k]);
    }
  }

  /** The ids of the inquiries of a text file are pairwise distinct. */
  lemma TxtIdsDistinct(content: string)
    ensures forall k, m :: 0 <= k < m < |TxtInquiries(content)| ==>
      TxtInquiries(content)[k].id != TxtInquiries(content)[m].id
  {
    forall k, m | 0 <= k < m < |TxtInquiries(content)|
      ensures TxtInquiries(content)[k].id != TxtInquiries(content)[m].id
    {
      NatToStringInjective(k, m);
      if TxtId(k) == TxtId(m) {
        PrefixCancel("txt-", NatToString(k), NatToString(m));
      }
    }
  }

  /** A text file yields no inquiry exactly when it holds nothing but white space. */
  lemma TxtEmptyIffBlank(content: string)
    ensures TxtInquiries(content) == [] <==> Blank(content)
  {
    var parts := Split(content, '\n');
    SplitJoin(content, '\n');
    JoinBlank(parts);
    NonBlankEmpty(parts);
  }

  /**
   * Writing trimmed, non-empty texts one per line and reading the file back
   * gives the same texts, in order.
   */
  lemma TxtRoundTrip(texts: seq<string>)
    requires |texts| >= 1
    requires forall k :: 0 <= k < |texts| ==> texts[k] != "" && Trim(texts[k]) == texts[k] && '\n' !in texts[k]
    ensures |TxtInquiries(Join(texts, '\n'))| == |texts|
    ensures forall k :: 0 <= k < |texts| ==> TxtInquiries(Join(texts, '\n'))[k].text == texts[k]
  {
    JoinSplit(texts, '\n');
    forall k | 0 <= k < |texts| ensures !Blank(texts[k]) {
      BlankTrimsToNothing(texts[k]);
    }
    NonBlankKeepsAll(texts);
  }

  /** A file picked by the user; no content means reading it failed. */
  datatype UploadFile = UploadFile(name: string, content: Option<string>)

  /** The toast the handler shows, or none when no file was picked. */
  datatype Notice = NoFile | InvalidFormat | Loaded(count: nat) | EmptyFile | ReadFailed

  /**
   * The uploader's state: the name it shows, whether it is loading, and the
   * inquiry lists it has handed on to `onUpload`, oldest first.
   */
  class FileUploader {
    var fileName: Option<string>
    var isLoading: bool
    var uploads: seq<seq<Inquiry>>

    /** Between events nothing is loading and every list handed on is non-empty. */
    predicate Valid()
      reads this
    {
      !isLoading && forall k :: 0 <= k < |uploads| ==> uploads[k] != []
    }

    constructor()
      ensures Valid() && fileName == None && uploads == []
    {
      fileName := None;
      isLoading := false;
      uploads := [];
    }

    /**
     * `handleFileChange`: without a file or with a wrong extension nothing
     * changes; otherwise the name is shown, the file is read and parsed, its
     * inquiries are handed on only when there are some, and loading ends.
     */
    method HandleFileChange(file: Option<UploadFile>) returns (notice: Notice)
      requires Valid()
      modifies this
      ensures Valid()
      ensures file.None? ==> notice == NoFile && fileName == old(fileName) && uploads == old(uploads)
      ensures file.Some? && !Accepted(file.value.name) ==>
        notice == InvalidFormat && fileName == old(fileName) && uploads == old(uploads)
      ensures file.Some? && Accepted(file.value.name) ==> fileName == Some(file.value.name)
      ensures file.Some? && Accepted(file.value.name) && file.value.content.None? ==>
        notice == ReadFailed && uploads == old(uploads)
      ensures file.Some? && Accepted(file.value.name) && file.value.content.Some? ==>
        var inquiries := FileInquiries(file.value.name, file.value.content.value);
        && (inquiries != [] ==> notice == Loaded(|inquiries|) && uploads == old(uploads) + [inquiries])
        && (inquiries == [] ==> notice == EmptyFile && uploads == old(uploads))
    {
      if file.None? {
        return NoFile;
      }
      var f := file.value;
      if !EndsWith(f.name, ".csv") && !EndsWith(f.name, ".txt") {
        return InvalidFormat;
      }
      fileName := Some(f.name);
      isLoading := true;
      if f.content.None? {
        notice := ReadFailed;
      } else {
        var inquiries: seq<Inquiry>;
        if EndsWith(f.name, ".csv") {
          inquiries := ParseCsv(f.content.value);
        } else {
          inquiries := TxtInquiries(f.content.value);
        }
        if |inquiries| > 0 {
          uploads := uploads + [inquiries];
          notice := Loaded(|inquiries|);
        } else {
          notice := EmptyFile;
        }
      }
      isLoading := false;
    }

    /** `clearFile`: forgets the shown name and nothing else. */
    method ClearFile()
      modifies this
      ensures fileName == None && isLoading == old(isLoading) && uploads == old(uploads)
    {
      fileName := None;
    }
  }
}
