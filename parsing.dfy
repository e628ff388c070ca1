/** The page-metadata parser of `src/parsing.ts`. A person's page is a header
    (`# <name>` on its first line), then a line `---`, and anywhere in the page
    lines `**Birth**: ...`, `**Death**: ...`, `**Parents**: a, b`,
    `**Children**: ...`, `**Spouse(s)**: ...`. Lines are split on '\n' and
    trimmed before anything is matched. The JavaScript string operations it
    uses (`split` on one character, `trim`, `indexOf`, `startsWith`, `find`) are
    defined here on `seq<char>` and characterised by lemmas. */
module Parsing {
  import opened Wrappers

  // ---------------------------------------------------------------------------
  // JavaScript string operations

  /** The characters `String.prototype.trim` removes: the ECMAScript WhiteSpace
      and LineTerminator code points. */
  const Whitespace: set<char> := {
    '\t', '\n', '\U{000B}', '\U{000C}', '\r', ' ', '\U{00A0}', '\U{1680}',
    '\U{2000}', '\U{2001}', '\U{2002}', '\U{2003}', '\U{2004}', '\U{2005}', '\U{2006}', '\U{2007}',
    '\U{2008}', '\U{2009}', '\U{200A}', '\U{2028}', '\U{2029}', '\U{202F}', '\U{205F}', '\U{3000}', '\U{FEFF}'
  }

  predicate IsWhitespace(c: char) {
    c in Whitespace
  }

  /** Leading whitespace removed: the longest suffix not starting with whitespace. */
  function TrimStart(s: string): (r: string)
    ensures |r| <= |s| && r == s[|s| - |r|..]
    ensures forall i :: 0 <= i < |s| - |r| ==> IsWhitespace(s[i])
    ensures r == [] || !IsWhitespace(r[0])
  {
    if s == [] || !IsWhitespace(s[0]) then s else TrimStart(s[1..])
  }

  /** Trailing whitespace removed: the longest prefix not ending in whitespace. */
  function TrimEnd(s: string): (r: string)
    ensures |r| <= |s| && r == s[..|r|]
    ensures forall i :: |r| <= i < |s| ==> IsWhitespace(s[i])
    ensures r == [] || !IsWhitespace(r[|r| - 1])
  {
    if s == [] || !IsWhitespace(s[|s| - 1]) then s else TrimEnd(s[..|s| - 1])
  }

  /** `s.trim()`. */
  function Trim(s: string): string {
    TrimEnd(TrimStart(s))
  }

  /** The trimmed text is a contiguous slice of the input with only whitespace
      cut off either end, and neither of its ends is whitespace. */
  lemma TrimSlice(s: string)
    ensures var a := |s| - |TrimStart(s)|;
            var b := a + |Trim(s)|;
            && 0 <= a <= b <= |s| && Trim(s) == s[a..b]
            && (forall i :: 0 <= i < a ==> IsWhitespace(s[i]))
            && (forall i :: b <= i < |s| ==> IsWhitespace(s[i]))
  {
    var t := TrimStart(s);
    var u := TrimEnd(t);
    var a := |s| - |t|;
    var b := a + |u|;
    assert t == s[a..];
    assert u == t[..|u|];
    assert s[a..][..|u|] == s[a..b];
    forall i | b <= i < |s|
      ensures IsWhitespace(s[i])
    {
      assert s[i] == t[i - a];
    }
  }

  /** Neither end of the trimmed text is whitespace. */
  lemma TrimEnds(s: string)
    ensures Trim(s) == [] || (!IsWhitespace(Trim(s)[0]) && !IsWhitespace(Trim(s)[|Trim(s)| - 1]))
  {
    var t := TrimStart(s);
    var u := TrimEnd(t);
    if u != [] {
      assert u[0] == t[0];
    }
  }

  /** Trimming twice trims nothing more. */
  lemma TrimIdempotent(s: string)
    ensures Trim(Trim(s)) == Trim(s)
  {
    var t := Trim(s);
    if t != [] {
      TrimEnds(s);
      assert TrimStart(t) == t;
      assert TrimEnd(t) == t;
    }
  }

  /** `s.split(sep)` for a one-character separator: the pieces between
      occurrences, so there is always at least one. */
  function Split(s: string, sep: char): (r: seq<string>)
    ensures |r| >= 1
  {
    if s == [] then [""]
    else if s[0] == sep then [""] + Split(s[1..], sep)
    else
      var rest := Split(s[1..], sep);
      [[s[0]] + rest[0]] + rest[1..]
  }

  /** `pieces.join(sep)`. */
  function Join(pieces: seq<string>, sep: char): string
    requires |pieces| >= 1
  {
    if |pieces| == 1 then pieces[0] else pieces[0] + [sep] + Join(pieces[1..], sep)
  }

  /** No piece contains the separator. */
  lemma {:induction false} SplitPiecesFree(s: string, sep: char)
    ensures forall i :: 0 <= i < |Split(s, sep)| ==> sep !in Split(s, sep)[i]
  {
    if s != [] {
      SplitPiecesFree(s[1..], sep);
      var rest := Split(s[1..], sep);
      if s[0] != sep {
        assert sep !in rest[0];
        assert sep !in [s[0]] + rest[0];
      }
    }
  }

  /** Joining the pieces with the separator gives back the string. */
  lemma {:induction false} JoinSplit(s: string, sep: char)
    ensures Join(Split(s, sep), sep) == s
  {
    if s != [] {
      JoinSplit(s[1..], sep);
      var rest := Split(s[1..], sep);
      if s[0] == sep {
        assert Split(s, sep)[1..] == rest;
      } else {
        var ps := Split(s, sep);
        if |rest| == 1 {
          assert ps == [[s[0]] + rest[0]];
        } else {
          assert ps[1..] == rest[1..];
          assert Join(rest, sep) == rest[0] + [sep] + Join(rest[1..], sep);
        }
      }
    }
  }

  /** Splitting text made of separator-free pieces gives back those pieces. */
  lemma {:induction false} SplitJoin(pieces: seq<string>, sep: char)
    requires |pieces| >= 1
    requires forall i :: 0 <= i < |pieces| ==> sep !in pieces[i]
    ensures Split(Join(pieces, sep), sep) == pieces
  {
    if |pieces| == 1 {
      SplitNoSep(pieces[0], sep);
    } else {
      SplitJoin(pieces[1..], sep);
      SplitAt(pieces[0] + [sep] + Join(pieces[1..], sep), sep, |pieces[0]|);
      assert (pieces[0] + [sep] + Join(pieces[1..], sep))[..|pieces[0]|] == pieces[0];
      assert (pieces[0] + [sep] + Join(pieces[1..], sep))[|pieces[0]| + 1..] == Join(pieces[1..], sep);
    }
  }

  /** A string without the separator is one piece. */
  lemma {:induction false} SplitNoSep(s: string, sep: char)
    requires sep !in s
    ensures Split(s, sep) == [s]
  {
    if s != [] {
      SplitNoSep(s[1..], sep);
      assert [s[0]] + s[1..] == s;
    }
  }

  /** At the first separator, the first piece is everything before it. */
  lemma {:induction false} SplitAt(s: string, sep: char, i: nat)
    requires i < |s| && s[i] == sep && sep !in s[..i]
    ensures Split(s, sep) == [s[..i]] + Split(s[i + 1..], sep)
  {
    if i > 0 {
      assert s[1..][..i - 1] == s[1..i];
      assert sep !in s[1..][..i - 1];
      SplitAt(s[1..], sep, i - 1);
      assert [s[0]] + s[1..][..i - 1] == s[..i];
      assert s[1..][i..] == s[i + 1..];
    }
  }

  /** `trim` applied to every piece, in order. */
  function TrimAll(pieces: seq<string>): (r: seq<string>)
    ensures |r| == |pieces|
    ensures forall i :: 0 <= i < |pieces| ==> r[i] == Trim(pieces[i])
  {
    seq(|pieces|, i requires 0 <= i < |pieces| => Trim(pieces[i]))
  }

  /** `page.split('\n').map(line => line.trim())`. */
  function Lines(page: string): (r: seq<string>)
    ensures |r| >= 1
  {
    TrimAll(Split(page, '\n'))
  }

  /** `xs.indexOf(x)`. */
  function IndexOf(xs: seq<string>, x: string): (r: int)
    ensures r == -1 <==> x !in xs
    ensures r != -1 ==> 0 <= r < |xs| && xs[r] == x && forall j :: 0 <= j < r ==> xs[j] != x
  {
    if xs == [] then -1
    else if xs[0] == x then 0
    else
      var r := IndexOf(xs[1..], x);
      if r == -1 then -1 else r + 1
  }

  predicate StartsWith(s: string, prefix: string) {
    |prefix| <= |s| && s[..|prefix|] == prefix
  }

  /** `lines.find(line => line.startsWith(prefix))`. */
  function FindStartingWith(lines: seq<string>, prefix: string): (r: Option<string>)
    ensures r.None? <==> forall i :: 0 <= i < |lines| ==> !StartsWith(lines[i], prefix)
    ensures r.Some? ==> r.value in lines && StartsWith(r.value, prefix)
  {
    if lines == [] then None
    else if StartsWith(lines[0], prefix) then Some(lines[0])
    else FindStartingWith(lines[1..], prefix)
  }

  /** `find` returns the FIRST matching line. */
  lemma {:induction false} FindStartingWithFirst(lines: seq<string>, prefix: string, i: nat)
    requires i < |lines| && StartsWith(lines[i], prefix)
    requires forall j :: 0 <= j < i ==> !StartsWith(lines[j], prefix)
    ensures FindStartingWith(lines, prefix) == Some(lines[i])
  {
    if i > 0 {
      assert !StartsWith(lines[0], prefix);
      FindStartingWithFirst(lines[1..], prefix, i - 1);
    }
  }

  /** `line.split(':')[1]`: absent when there is no ':'. */
  function SegmentAfterColon(line: string): Option<string> {
    var parts := Split(line, ':');
    if |parts| < 2 then None else Some(parts[1])
  }

  /** The segment is the text strictly between the first ':' and the second
      (or the end of the line); without a ':' there is none. */
  lemma SegmentAfterColonSpec(line: string, i: nat, j: nat)
    requires i < j <= |line| && line[i] == ':' && ':' !in line[..i] && ':' !in line[i + 1..j]
    requires j == |line| || line[j] == ':'
    ensures SegmentAfterColon(line) == Some(line[i + 1..j])
  {
    SplitAt(line, ':', i);
    var rest := line[i + 1..];
    assert rest[..j - i - 1] == line[i + 1..j];
    if j == |line| {
      assert rest == line[i + 1..j];
      SplitNoSep(rest, ':');
    } else {
      SplitAt(rest, ':', j - i - 1);
    }
  }

  lemma SegmentAfterColonNone(line: string)
    ensures SegmentAfterColon(line).None? <==> ':' !in line
  {
    if ':' !in line {
      SplitNoSep(line, ':');
    } else {
      var i :| 0 <= i < |line| && line[i] == ':';
      FirstColon(line, i);
    }
  }

  /** A ':' anywhere means there is a first one, and splitting there gives two
      or more pieces. */
  lemma {:induction false} FirstColon(line: string, i: nat)
    requires i < |line| && line[i] == ':'
    ensures |Split(line, ':')| >= 2
  {
    if line[0] == ':' {
      assert |Split(line, ':')| == 1 + |Split(line[1..], ':')|;
    } else {
      FirstColon(line[1..], i - 1);
    }
  }

  // ---------------------------------------------------------------------------
  // extractPageMeta

  datatype PageMetaInfo = PageMetaInfo(
    id: string,
    name: string,
    birth: Option<string>,
    death: Option<string>,
    parents: Option<seq<string>>,
    children: Option<seq<string>>,
    spouses: Option<seq<string>>)

  datatype PageError =
    | MissingSeparator
    | MissingName
    | InvalidName(name: string)

  /** A one-value field: the trimmed segment after the ':' of the first line
      starting with `tag`. */
  function TextField(lines: seq<string>, tag: string): Option<string> {
    var line :- FindStartingWith(lines, tag);
    var segment :- SegmentAfterColon(line);
    Some(Trim(segment))
  }

  /** A list field: that segment split on ',' and each piece trimmed. */
  function ListField(lines: seq<string>, tag: string): Option<seq<string>> {
    var line :- FindStartingWith(lines, tag);
    var segment :- SegmentAfterColon(line);
    Some(TrimAll(Split(segment, ',')))
  }

  /** A valid name line: at least three characters and starting with "# ". */
  predicate ValidNameLine(name: string) {
    name != "" && |name| >= 3 && StartsWith(name, "# ")
  }

  /** `extractPageMeta(page, fileName)`. */
  function ExtractPageMeta(page: string, fileName: string): (r: Result<PageMetaInfo, PageError>)
    ensures r.Failure? <==> "---" !in Lines(page) || Lines(page)[0] == "---" || !ValidNameLine(Lines(page)[0])
    ensures r.Success? ==> r.value.id == fileName && r.value.name == Lines(page)[0][2..]
  {
    var lines := Lines(page);
    var headerEnd := IndexOf(lines, "---");
    if headerEnd == -1 then Failure(MissingSeparator)
    else if headerEnd == 0 then Failure(MissingName)
    else
      var name := lines[0];
      if !ValidNameLine(name) then Failure(InvalidName(name))
      else
        Success(PageMetaInfo(
          fileName,
          name[2..],
          TextField(lines, "**Birth**"),
          TextField(lines, "**Death**"),
          ListField(lines, "**Parents**"),
          ListField(lines, "**Children**"),
          ListField(lines, "**Spouse(s)**")))
  }

  /** The first error: no line is `---`. */
  lemma ExtractPageMetaMissingSeparator(page: string, fileName: string)
    ensures ExtractPageMeta(page, fileName) == Failure(MissingSeparator) <==> "---" !in Lines(page)
  {
  }

  /** The second error: the first `---` is the first line, so the header is empty. */
  lemma ExtractPageMetaMissingName(page: string, fileName: string)
    ensures ExtractPageMeta(page, fileName) == Failure(MissingName) <==> Lines(page)[0] == "---"
  {
    var lines := Lines(page);
    if lines[0] == "---" {
      assert IndexOf(lines, "---") == 0;
    }
  }

  /** The third error: there is a header but its first line is no valid name. */
  lemma ExtractPageMetaInvalidName(page: string, fileName: string)
    ensures ExtractPageMeta(page, fileName) == Failure(InvalidName(Lines(page)[0])) <==>
              "---" in Lines(page) && Lines(page)[0] != "---" && !ValidNameLine(Lines(page)[0])
    ensures ExtractPageMeta(page, fileName).Failure? ==>
              ExtractPageMeta(page, fileName) in {Failure(MissingSeparator), Failure(MissingName), Failure(InvalidName(Lines(page)[0]))}
  {
    var lines := Lines(page);
    if lines[0] == "---" {
      assert IndexOf(lines, "---") == 0;
    }
  }

  /** On success the id is the file name, the name is the first line without its
      "# " marker, and the fields are those of the whole page. */
  lemma ExtractPageMetaSuccess(page: string, fileName: string)
    requires ExtractPageMeta(page, fileName).Success?
    ensures var meta := ExtractPageMeta(page, fileName).value;
            var lines := Lines(page);
            && meta.id == fileName
            && "# " + meta.name == lines[0]
            && |meta.name| >= 1
            && "---" in lines[1..]
            && meta.birth == TextField(lines, "**Birth**")
            && meta.death == TextField(lines, "**Death**")
            && meta.parents == ListField(lines, "**Parents**")
            && meta.children == ListField(lines, "**Children**")
            && meta.spouses == ListField(lines, "**Spouse(s)**")
  {
    var lines := Lines(page);
    var k := IndexOf(lines, "---");
    var name := lines[0];
    assert ExtractPageMeta(page, fileName) == Success(PageMetaInfo(
          fileName,
          name[2..],
          TextField(lines, "**Birth**"),
          TextField(lines, "**Death**"),
          ListField(lines, "**Parents**"),
          ListField(lines, "**Children**"),
          ListField(lines, "**Spouse(s)**")));
    NameLine(name);
    assert lines[1..][k - 1] == "---";
  }

  /** A valid name line is "# " followed by at least one character. */
  lemma NameLine(name: string)
    requires ValidNameLine(name)
    ensures "# " + name[2..] == name && |name[2..]| >= 1
  {
    assert name[..2] == "# ";
    assert name == name[..2] + name[2..];
  }

  /** A one-value field is the trimmed text between the first and the second
      ':' (or the end) of the first line starting with the tag; a list field is
      then present too. */
  lemma TextFieldSpec(lines: seq<string>, tag: string, k: nat, i: nat, j: nat)
    requires k < |lines| && StartsWith(lines[k], tag)
    requires forall m :: 0 <= m < k ==> !StartsWith(lines[m], tag)
    requires i < j <= |lines[k]| && lines[k][i] == ':' && ':' !in lines[k][..i] && ':' !in lines[k][i + 1..j]
    requires j == |lines[k]| || lines[k][j] == ':'
    ensures TextField(lines, tag) == Some(Trim(lines[k][i + 1..j]))
    ensures ListField(lines, tag).Some?
  {
    FindStartingWithFirst(lines, tag, k);
    SegmentAfterColonSpec(lines[k], i, j);
  }

  /** A field is absent exactly when no line starts with the tag or the first
      such line has no ':'. */
  lemma TextFieldAbsent(lines: seq<string>, tag: string)
    ensures TextField(lines, tag).None? <==>
              FindStartingWith(lines, tag).None? || ':' !in FindStartingWith(lines, tag).value
    ensures ListField(lines, tag).None? <==> TextField(lines, tag).None?
  {
    if FindStartingWith(lines, tag).Some? {
      SegmentAfterColonNone(FindStartingWith(lines, tag).value);
    }
  }

  /** A list field holds the trimmed comma-separated pieces of its segment, in
      order: at least one, none containing ',', and the untrimmed pieces joined
      back with ',' are the segment itself. */
  lemma ListFieldPieces(lines: seq<string>, tag: string)
    requires ListField(lines, tag).Some?
    ensures var segment := SegmentAfterColon(FindStartingWith(lines, tag).value).value;
            var pieces := Split(segment, ',');
            var items := ListField(lines, tag).value;
            && |items| == |pieces| >= 1
            && Join(pieces, ',') == segment
            && (forall i :: 0 <= i < |items| ==> items[i] == Trim(pieces[i]) && ',' !in pieces[i])
  {
    var segment := SegmentAfterColon(FindStartingWith(lines, tag).value).value;
    JoinSplit(segment, ',');
    SplitPiecesFree(segment, ',');
  }
}
