/** Taking a MIME message apart, and storing its attachments. */
module Mime {
  import opened Models
  import opened Text

  /** The headers of an attachment that can carry its file name. */
  datatype AttachmentHeader = AttachmentHeader(
    filename: string,
    disposition: string,
    contentType: string,
    name: Option<string>,
    attachmentName: string)

  /** What the part reader returns before EOF: an error, an inline part, or an attachment whose
      body can or cannot be read. `stamp` is the clock reading used for a generated name. */
  datatype Part =
    | Broken
    | Inline(contentType: string, content: string)
    | Attached(header: AttachmentHeader, stamp: string, data: Option<Bytes>)

  // ---- File names

  const FILENAME: string := "filename="

  predicate NamesFile(piece: string)
  {
    HasPrefix(TrimSpace(piece), FILENAME)
  }

  predicate IsQuote(c: char)
  {
    c == '"'
  }

  /** The first `filename=` parameter among the pieces of a header, without its quotes. */
  function FilenameParameter(pieces: seq<string>): string
  {
    if pieces == [] then ""
    else if NamesFile(pieces[0]) then Trim(TrimPrefix(TrimSpace(pieces[0]), FILENAME), IsQuote)
    else FilenameParameter(pieces[1..])
  }

  method DispositionFilename(disposition: string) returns (filename: string)
    ensures filename == FilenameParameter(Split(disposition, ';'))
  {
    var pieces := Split(disposition, ';');
    for i := 0 to |pieces|
      invariant FilenameParameter(pieces) == FilenameParameter(pieces[i..])
    {
      if NamesFile(pieces[i]) {
        return Trim(TrimPrefix(TrimSpace(pieces[i]), FILENAME), IsQuote);
      }
      assert pieces[i..][1..] == pieces[i + 1..];
    }
    return "";
  }

  function DefaultExtension(contentType: string): string
  {
    if HasPrefix(contentType, "image/") then
      var pieces := Split(contentType, '/');
      if |pieces| == 2 then "." + pieces[1] else ".bin"
    else if HasPrefix(contentType, "application/pdf") then ".pdf"
    else if HasPrefix(contentType, "text/") then ".txt"
    else ".bin"
  }

  /** The chain of fallbacks; `dispositionName` is what the Content-Disposition header yields. */
  function Filename(h: AttachmentHeader, dispositionName: string, stamp: string): string
  {
    var first := if h.filename == "" then dispositionName else h.filename;
    var second := if first == "" && h.name.Some? then h.name.value else first;
    var third := if second == "" then h.attachmentName else second;
    if third == "" then "attachment_" + stamp + DefaultExtension(h.contentType) else third
  }

  // ---- Bodies and attachments

  datatype Attachment = Attachment(filename: string, contentType: string, sizeBytes: nat, storagePath: string)

  predicate IsPlain(p: Part)
  {
    p.Inline? && HasPrefix(p.contentType, "text/plain")
  }

  predicate IsHtml(p: Part)
  {
    p.Inline? && !IsPlain(p) && HasPrefix(p.contentType, "text/html")
  }

  /** The text is that of the last selected part, or empty if no part is selected. */
  ghost predicate IsLastOf(parts: seq<Part>, select: Part -> bool, text: string)
  {
    || (text == "" && forall i :: 0 <= i < |parts| ==> !select(parts[i]))
    || (exists i :: 0 <= i < |parts| && select(parts[i]) && parts[i].Inline? && parts[i].content == text
          && forall j :: i < j < |parts| ==> !select(parts[j]))
  }

  /** The attachments whose bodies can be read, in the order of the message. */
  function Readable(parts: seq<Part>): (r: seq<Part>)
    ensures forall p :: p in r ==> p.Attached? && p.data.Some?
  {
    if parts == [] then []
    else
      var p := parts[|parts| - 1];
      Readable(parts[..|parts| - 1]) + if p.Attached? && p.data.Some? then [p] else []
  }

  /** The metadata recorded for an attachment: its resolved name, its type and its true size. */
  ghost predicate Describes(a: Attachment, p: Part)
    requires p.Attached? && p.data.Some?
  {
    && a.sizeBytes == |p.data.value|
    && a.contentType == p.header.contentType
    && a.storagePath == ""
    && a.filename == FirstNonEmpty(Candidates(p.header, p.stamp))
  }

  /** Where a file name may come from, best source first; the last one is never empty. */
  function Candidates(h: AttachmentHeader, stamp: string): seq<string>
  {
    [h.filename,
     FilenameParameter(Split(h.disposition, ';')),
     if h.name.Some? then h.name.value else "",
     h.attachmentName,
     "attachment_" + stamp + DefaultExtension(h.contentType)]
  }

  function FirstNonEmpty(names: seq<string>): string
  {
    if names == [] then "" else if names[0] != "" then names[0] else FirstNonEmpty(names[1..])
  }

  lemma FilenameIsFirstNonEmpty(h: AttachmentHeader, dispositionName: string, stamp: string)
    requires h.filename == "" && h.disposition != "" ==>
      dispositionName == FilenameParameter(Split(h.disposition, ';'))
    requires h.filename != "" || h.disposition == "" ==> dispositionName == ""
    ensures Filename(h, dispositionName, stamp) == FirstNonEmpty(Candidates(h, stamp)) != ""
  {
    hide DefaultExtension, FilenameParameter;
    var c := Candidates(h, stamp);
    EmptyNamesNothing();
    assert c[4] != "" && FirstNonEmpty(c[4..]) == c[4];
    assert c[3..][1..] == c[4..] && c[2..][1..] == c[3..] && c[1..][1..] == c[2..];
    assert FirstNonEmpty(c[3..]) == if c[3] != "" then c[3] else c[4];
    assert FirstNonEmpty(c[2..]) == if c[2] != "" then c[2] else FirstNonEmpty(c[3..]);
    assert FirstNonEmpty(c[1..]) == if c[1] != "" then c[1] else FirstNonEmpty(c[2..]);
  }

  lemma EmptyNamesNothing()
    ensures FilenameParameter(Split("", ';')) == ""
  {
    assert [""][1..] == [];
  }

  /** Metadata and contents of exactly the readable attachments, in order. */
  ghost predicate Collected(attachments: seq<Attachment>, contents: seq<Bytes>, parts: seq<Part>)
  {
    && |attachments| == |contents| == |Readable(parts)|
    && forall i :: 0 <= i < |contents| ==>
      Describes(attachments[i], Readable(parts)[i]) && contents[i] == Readable(parts)[i].data.value
  }

  lemma NothingYet()
    ensures IsLastOf([], IsPlain, "") && IsLastOf([], IsHtml, "") && Collected([], [], [])
  {
  }

  lemma CollectedSnoc(attachments: seq<Attachment>, contents: seq<Bytes>, parts: seq<Part>, p: Part)
    requires Collected(attachments, contents, parts)
    ensures !(p.Attached? && p.data.Some?) ==> Collected(attachments, contents, parts + [p])
    ensures p.Attached? && p.data.Some? ==>
      forall a :: Describes(a, p) ==> Collected(attachments + [a], contents + [p.data.value], parts + [p])
  {
    hide Describes;
    assert (parts + [p])[..|parts|] == parts;
  }

  // ---- What the naming rules say

  /** The first piece that names a file decides, and its quotes and spaces are no part of the name. */
  lemma {:induction false} FirstParameter(pieces: seq<string>, i: nat)
    requires i < |pieces| && NamesFile(pieces[i]) && forall j :: 0 <= j < i ==> !NamesFile(pieces[j])
    ensures FilenameParameter(pieces) == Trim(TrimPrefix(TrimSpace(pieces[i]), "filename="), IsQuote)
  {
    hide NamesFile;
    if i > 0 {
      FirstParameter(pieces[1..], i - 1);
    }
  }

  lemma {:induction false} NoParameter(pieces: seq<string>)
    requires forall j :: 0 <= j < |pieces| ==> !NamesFile(pieces[j])
    ensures FilenameParameter(pieces) == ""
  {
    hide NamesFile;
    if pieces != [] {
      NoParameter(pieces[1..]);
    }
  }

  /** A piece names a file exactly if, after spaces, it starts with `filename=`. */
  lemma NamesFileIs(piece: string)
    ensures NamesFile(piece) <==> exists rest :: Concat(TrimSpace(piece), "filename=", rest)
  {
    PrefixIs(TrimSpace(piece), "filename=");
  }

  lemma SpacedPiece(core: string)
    requires Bare(core, IsSpace)
    ensures TrimSpace(" " + core) == core
  {
    TrimOf(" ", core, "", IsSpace);
    assert " " + core + "" == " " + core;
  }

  lemma QuotedName(name: string)
    requires Bare(name, IsQuote)
    ensures Trim("\"" + name + "\"", IsQuote) == name
  {
    TrimOf("\"", name, "\"", IsQuote);
  }

  lemma QuotedPiece(name: string)
    requires Bare(name, IsQuote)
    ensures NamesFile(" filename=\"" + name + "\"")
    ensures Trim(TrimPrefix(TrimSpace(" filename=\"" + name + "\""), "filename="), IsQuote) == name
  {
    var quoted := "\"" + name + "\"";
    var core := "filename=" + quoted;
    assert " filename=\"" + name + "\"" == " " + core;
    assert core[|core| - 1] == '"' && core[0] == 'f';
    SpacedPiece(core);
    AffixesTrimmed(quoted, "filename=");
    QuotedName(name);
    PrefixIs(core, "filename=");
    assert Concat(core, "filename=", quoted);
    hide Trim, TrimPrefix, HasPrefix, TrimSpace;
  }

  /** A name written into a Content-Disposition header in the usual way is read back. */
  lemma NameIsReadBack(kind: string, name: string)
    requires ';' !in kind && ';' !in name && !NamesFile(kind) && Bare(name, IsQuote)
    ensures FilenameParameter(Split(kind + "; filename=\"" + name + "\"", ';')) == name
  {
    var piece := " filename=\"" + name + "\"";
    var header := kind + "; filename=\"" + name + "\"";
    assert "; filename=\"" == [';'] + " filename=\"";
    assert header == kind + [';'] + piece;
    JoinTwo(kind, piece, ';');
    NoSemicolon(name);
    hide Split, Join, Trim, TrimPrefix, TrimSpace, NamesFile, FilenameParameter;
    JoinSplits([kind, piece], ';');
    QuotedPiece(name);
    FirstParameter([kind, piece], 1);
  }

  lemma NoSemicolon(name: string)
    requires ';' !in name
    ensures ';' !in " filename=\"" + name + "\""
  {
  }

  lemma JoinTwo(a: string, b: string, sep: char)
    ensures Join([a, b], sep) == a + [sep] + b
  {
    assert [a, b][1..] == [b];
  }

  /** Images get their subtype as the extension, if there is just one slash; then PDF, text, and the
      rest. */
  lemma DefaultExtensionIs(rest: string)
    ensures '/' !in rest ==> DefaultExtension("image/" + rest) == "." + rest
    ensures '/' in rest ==> DefaultExtension("image/" + rest) == ".bin"
    ensures DefaultExtension("application/pdf" + rest) == ".pdf"
    ensures DefaultExtension("text/" + rest) == ".txt"
  {
    ImagePieces(rest);
    assert ("image/" + rest)[..6] == "image/";
    assert ("application/pdf" + rest)[..15] == "application/pdf" && ("application/pdf" + rest)[0] == 'a';
    assert ("text/" + rest)[..5] == "text/" && ("text/" + rest)[0] == 't';
    hide Split;
  }

  lemma ImagePieces(rest: string)
    ensures '/' !in rest ==> Split("image/" + rest, '/') == ["image", rest]
    ensures '/' in rest ==> |Split("image/" + rest, '/')| != 2
  {
    var s := "image/" + rest;
    var pieces := Split(s, '/');
    SplitJoins(s, '/');
    if '/' !in rest {
      assert ["image", rest][1..] == [rest];
      assert Join(["image", rest], '/') == s;
      JoinSplits(["image", rest], '/');
    } else if |pieces| == 2 {
      assert pieces[1..] == [pieces[1]];
      SlashesOf(pieces[0], pieces[1], rest);
    }
  }

  lemma SlashesOf(a: string, b: string, rest: string)
    requires '/' !in a && '/' !in b && "image/" + rest == a + ['/'] + b
    ensures '/' !in rest
  {
    var s := "image/" + rest;
    assert s[5] == '/' && forall k :: 0 <= k < 5 ==> s[k] != '/';
    assert s[|a|] == '/' && forall k :: 0 <= k < |a| ==> s[k] == a[k];
    assert rest == s[6..] && s[|a| + 1..] == b;
  }

  lemma OtherExtension(contentType: string)
    requires forall rest :: !Concat(contentType, "image/", rest)
    requires forall rest :: !Concat(contentType, "application/pdf", rest) && !Concat(contentType, "text/", rest)
    ensures DefaultExtension(contentType) == ".bin"
  {
    PrefixIs(contentType, "image/");
    PrefixIs(contentType, "application/pdf");
    PrefixIs(contentType, "text/");
  }

  /** The sources of a name in order: the parsed header, its raw text, the content type's parameter,
      the extra header, and a name made up from the clock. */
  lemma CandidatesAre(h: AttachmentHeader, stamp: string)
    ensures
      var raw := FilenameParameter(Split(h.disposition, ';'));
      FirstNonEmpty(Candidates(h, stamp)) ==
      if h.filename != "" then h.filename
      else if raw != "" then raw
      else if h.name != None && h.name.value != "" then h.name.value
      else if h.attachmentName != "" then h.attachmentName
      else "attachment_" + stamp + DefaultExtension(h.contentType)
  {
    hide DefaultExtension, FilenameParameter;
    var c := Candidates(h, stamp);
    assert c[3..][1..] == c[4..] && c[2..][1..] == c[3..] && c[1..][1..] == c[2..];
    assert FirstNonEmpty(c[4..]) == c[4];
    assert FirstNonEmpty(c[3..]) == if c[3] != "" then c[3] else c[4];
    assert FirstNonEmpty(c[2..]) == if c[2] != "" then c[2] else FirstNonEmpty(c[3..]);
    assert FirstNonEmpty(c[1..]) == if c[1] != "" then c[1] else FirstNonEmpty(c[2..]);
  }

  /** The two kinds of body, told apart by the start of their content type. */
  lemma BodyKinds(rest: string, content: string)
    ensures IsPlain(Inline("text/plain" + rest, content)) && !IsHtml(Inline("text/plain" + rest, content))
    ensures IsHtml(Inline("text/html" + rest, content)) && !IsPlain(Inline("text/html" + rest, content))
  {
    assert ("text/html" + rest)[5] == 'h';
  }

  /** The part loop: for any finite stream of parts and errors it ends with the last plain and the
      last HTML body, and with metadata and contents of exactly the readable attachments. */
  method ParseParts(parts: seq<Part>)
    returns (body: string, html: string, attachments: seq<Attachment>, contents: seq<Bytes>)
    ensures IsLastOf(parts, IsPlain, body)
    ensures IsLastOf(parts, IsHtml, html)
    ensures Collected(attachments, contents, parts)
  {
    hide IsLastOf, Collected, Filename, FilenameParameter, HasPrefix, Split, Readable;
    NothingYet();
    body, html, attachments, contents := "", "", [], [];
    for n := 0 to |parts|
      invariant IsLastOf(parts[..n], IsPlain, body)
      invariant IsLastOf(parts[..n], IsHtml, html)
      invariant Collected(attachments, contents, parts[..n])
    {
      var p := parts[n];
      assert parts[..n + 1] == parts[..n] + [p];
      CollectedSnoc(attachments, contents, parts[..n], p);
      LastOfSnoc(parts[..n], IsPlain, body, p);
      LastOfSnoc(parts[..n], IsHtml, html, p);
      match p
      case Broken =>
      case Inline(contentType, content) =>
        if HasPrefix(contentType, "text/plain") {
          body := content;
        } else if HasPrefix(contentType, "text/html") {
          html := content;
        }
      case Attached(h, stamp, data) =>
        var dispositionName := "";
        if h.filename == "" && h.disposition != "" {
          dispositionName := DispositionFilename(h.disposition);
        }
        var filename := Filename(h, dispositionName, stamp);
        FilenameIsFirstNonEmpty(h, dispositionName, stamp);
        if data.Some? {
          attachments := attachments + [Attachment(filename, h.contentType, |data.value|, "")];
          contents := contents + [data.value];
        }
    }
    assert parts[..|parts|] == parts;
  }

  lemma LastOfSnoc(parts: seq<Part>, select: Part -> bool, text: string, p: Part)
    requires IsLastOf(parts, select, text)
    ensures !select(p) ==> IsLastOf(parts + [p], select, text)
    ensures select(p) && p.Inline? ==> IsLastOf(parts + [p], select, p.content)
  {
    var all := parts + [p];
    if !select(p) {
      assert forall i :: 0 <= i < |parts| ==> all[i] == parts[i];
    } else {
      assert all[|parts|] == p;
    }
  }

  lemma LastOfIsUnique(parts: seq<Part>, select: Part -> bool, a: string, b: string)
    requires IsLastOf(parts, select, a) && IsLastOf(parts, select, b)
    ensures a == b
  {
  }

  // ---- Storage

  /** The directory of one mail: its parent for the day, and the mail's own name. */
  datatype MailDir = MailDir(parent: string, name: string)

  predicate IsSlash(c: char)
  {
    c == '/'
  }

  /** `filepath.Base`. */
  function Base(path: string): string
  {
    if path == "" then "."
    else
      var trimmed := TrimRight(path, IsSlash);
      if trimmed == "" then "/" else AfterSlash(trimmed)
  }

  function AfterSlash(path: string): string
  {
    if path == "" || path[|path| - 1] == '/' then ""
    else AfterSlash(path[..|path| - 1]) + [path[|path| - 1]]
  }

  /** `filepath.Join` of the directory and a base name, which cleans "." and "..". */
  function StoragePath(dir: MailDir, base: string): string
  {
    if base == "." || base == "/" then dir.parent + "/" + dir.name
    else if base == ".." then dir.parent
    else dir.parent + "/" + dir.name + "/" + base
  }

  function PathOf(dir: MailDir, a: Attachment): string
  {
    StoragePath(dir, Base(a.filename))
  }

  lemma BaseIsNotEmpty(path: string)
    ensures Base(path) != ""
  {
  }

  /** Names whose base is "." or "/" mean the directory itself. */
  predicate IsDirectory(base: string)
  {
    base == "." || base == "/"
  }

  /** Two file names share a path exactly when they share a base name, or both mean the directory. */
  lemma PathsByBaseName(dir: MailDir, x: string, y: string)
    ensures
      StoragePath(dir, Base(x)) == StoragePath(dir, Base(y)) <==>
      Base(x) == Base(y) || (IsDirectory(Base(x)) && IsDirectory(Base(y)))
  {
    var a, b := Base(x), Base(y);
    BaseIsNotEmpty(x);
    BaseIsNotEmpty(y);
    hide Base;
    var own := dir.parent + "/" + dir.name;
    assert forall c: string :: !IsDirectory(c) && c != ".." ==> StoragePath(dir, c) == own + "/" + c;
    assert |own + "/" + a| > |own| > |dir.parent| && |own + "/" + b| > |own|;
    assert (own + "/" + a)[|own| + 1..] == a && (own + "/" + b)[|own| + 1..] == b;
  }

  lemma {:induction false} AfterSlashOf(path: string, name: string)
    requires '/' !in name && (path == "" || path[|path| - 1] == '/')
    ensures AfterSlash(path + name) == name
  {
    if name == "" {
      assert path + name == path;
    } else {
      var shorter := name[..|name| - 1];
      assert (path + name)[..|path + name| - 1] == path + shorter;
      AfterSlashOf(path, shorter);
    }
  }

  /** The base of a path is its last element, whatever comes before and however many slashes after;
      the empty path is ".", and one of nothing but slashes is "/". */
  lemma BaseIs(dir: string, name: string, slashes: string)
    requires name != "" && '/' !in name && All(slashes, IsSlash)
    ensures Base(name + slashes) == name && Base(dir + "/" + name + slashes) == name
    ensures Base("") == "." && (slashes != "" ==> Base(slashes) == "/")
  {
    TrimRightOf(name, slashes, IsSlash);
    TrimRightOf(dir + "/" + name, slashes, IsSlash);
    AfterSlashOf("", name);
    assert "" + name == name;
    AfterSlashOf(dir + "/", name);
    assert dir + "/" + name == (dir + "/") + name;
    TrimRightOf("", slashes, IsSlash);
    assert "" + slashes == slashes;
  }

  lemma BaseOf(dir: string, name: string)
    requires name != "" && '/' !in name
    ensures Base(name) == name == Base(dir + "/" + name)
  {
    BaseIs(dir, name, "");
    hide Base;
    assert name + "" == name;
    assert dir + "/" + name + "" == dir + "/" + name;
  }

  /** An ordinary name is stored under the mail's own directory, without its own directories. */
  lemma PathIs(dir: MailDir, above: string, name: string)
    requires name != "" && '/' !in name && name != "." && name != ".."
    ensures StoragePath(dir, Base(name)) == dir.parent + "/" + dir.name + "/" + name
    ensures StoragePath(dir, Base(above + "/" + name)) == dir.parent + "/" + dir.name + "/" + name
  {
    BaseOf(above, name);
    hide Base;
  }

  /** The name ".." means the day's directory, "." and the empty name the mail's own. */
  lemma SpecialPaths(dir: MailDir)
    ensures StoragePath(dir, Base("..")) == dir.parent
    ensures StoragePath(dir, Base(".")) == StoragePath(dir, Base("")) == dir.parent + "/" + dir.name
  {
    BaseOf("", "..");
    BaseOf("", ".");
    assert Base("") == ".";
    hide Base;
  }

  /** The disk after the first `n` saves, where `ok` says which of them succeed. */
  function Saves(disk: map<string, Bytes>, paths: seq<string>, contents: seq<Bytes>, ok: nat -> bool, n: nat)
    : map<string, Bytes>
    requires n <= |paths| == |contents|
  {
    if n == 0 then disk
    else
      var before := Saves(disk, paths, contents, ok, n - 1);
      if ok(n - 1) then before[paths[n - 1] := contents[n - 1]] else before
  }

  function PathsOf(dir: MailDir, attachments: seq<Attachment>): (paths: seq<string>)
    ensures |paths| == |attachments|
    ensures forall i :: 0 <= i < |paths| ==> paths[i] == PathOf(dir, attachments[i])
  {
    seq(|attachments|, i requires 0 <= i < |attachments| => PathOf(dir, attachments[i]))
  }

  class Storage {
    var disk: map<string, Bytes>

    /** The save loop: successful saves set the storage path, failed ones leave it empty. */
    method SaveAll(dir: MailDir, attachments: seq<Attachment>, contents: seq<Bytes>, ok: nat -> bool)
      returns (saved: seq<Attachment>)
      requires |attachments| == |contents|
      modifies this
      ensures disk == Saves(old(disk), PathsOf(dir, attachments), contents, ok, |attachments|)
      ensures |saved| == |attachments|
      ensures forall i :: 0 <= i < |saved| ==>
        saved[i] == if ok(i) then attachments[i].(storagePath := PathOf(dir, attachments[i])) else attachments[i]
    {
      hide StoragePath, Base, PathsOf;
      ghost var paths := PathsOf(dir, attachments);
      saved := attachments;
      for i := 0 to |attachments|
        invariant |saved| == |attachments|
        invariant disk == Saves(old(disk), paths, contents, ok, i)
        invariant forall j :: 0 <= j < i ==>
          saved[j] == if ok(j) then attachments[j].(storagePath := PathOf(dir, attachments[j])) else attachments[j]
        invariant forall j :: i <= j < |saved| ==> saved[j] == attachments[j]
      {
        if ok(i) {
          var path := StoragePath(dir, Base(saved[i].filename));
          disk := disk[path := contents[i]];
          saved := saved[i := saved[i].(storagePath := path)];
        }
      }
    }
  }

  /** A stored path holds the contents of the last attachment saved under it. */
  lemma {:induction false} LastSaveWins(disk: map<string, Bytes>, paths: seq<string>, contents: seq<Bytes>,
                                        ok: nat -> bool, n: nat, i: nat)
    requires i < n <= |paths| == |contents| && ok(i)
    requires forall j :: i < j < n && ok(j) ==> paths[j] != paths[i]
    ensures paths[i] in Saves(disk, paths, contents, ok, n)
    ensures Saves(disk, paths, contents, ok, n)[paths[i]] == contents[i]
  {
    if i < n - 1 {
      LastSaveWins(disk, paths, contents, ok, n - 1, i);
    }
  }

  /** Files that nothing is saved under are left alone. */
  lemma {:induction false} OtherFilesKept(disk: map<string, Bytes>, paths: seq<string>, contents: seq<Bytes>,
                                          ok: nat -> bool, n: nat, path: string)
    requires n <= |paths| == |contents|
    requires forall j :: 0 <= j < n && ok(j) ==> paths[j] != path
    ensures path in Saves(disk, paths, contents, ok, n) <==> path in disk
    ensures path in disk ==> Saves(disk, paths, contents, ok, n)[path] == disk[path]
  {
    if n > 0 {
      OtherFilesKept(disk, paths, contents, ok, n - 1, path);
    }
  }
}
