/** The string operations the program takes from Go's `strings` package, on ASCII text. */
module Text {

  function LowerChar(c: char): char
  {
    if 'A' <= c <= 'Z' then (c as int + 32) as char else c
  }

  function ToLower(s: string): (r: string)
    ensures |r| == |s|
    ensures forall i :: 0 <= i < |s| ==> r[i] == LowerChar(s[i])
  {
    seq(|s|, i requires 0 <= i < |s| => LowerChar(s[i]))
  }

  predicate HasSuffix(s: string, suffix: string)
  {
    |suffix| <= |s| && s[|s| - |suffix|..] == suffix
  }

  /** The domain test of the program: both sides in lower case. */
  predicate InDomain(email: string, domain: string)
  {
    HasSuffix(ToLower(email), ToLower(domain))
  }

  predicate HasPrefix(s: string, prefix: string)
  {
    |prefix| <= |s| && s[..|prefix|] == prefix
  }

  function TrimPrefix(s: string, prefix: string): string
  {
    if HasPrefix(s, prefix) then s[|prefix|..] else s
  }

  function TrimSuffix(s: string, suffix: string): string
  {
    if HasSuffix(s, suffix) then s[..|s| - |suffix|] else s
  }

  predicate IsSpace(c: char)
  {
    c == ' ' || '\t' <= c <= '\r'
  }

  function TrimLeft(s: string, cut: char -> bool): (r: string)
    ensures r == [] || !cut(r[0])
  {
    if s == [] || !cut(s[0]) then s else TrimLeft(s[1..], cut)
  }

  function TrimRight(s: string, cut: char -> bool): (r: string)
    ensures r == [] || !cut(r[|r| - 1])
  {
    if s == [] || !cut(s[|s| - 1]) then s else TrimRight(s[..|s| - 1], cut)
  }

  function Trim(s: string, cut: char -> bool): string
  {
    TrimRight(TrimLeft(s, cut), cut)
  }

  function TrimSpace(s: string): string
  {
    Trim(s, IsSpace)
  }

  /** Go's `strings.Split` by a one-character separator: always at least one piece. */
  function Split(s: string, sep: char): (parts: seq<string>)
    ensures |parts| >= 1
  {
    if s == [] then [""]
    else
      var rest := Split(s[1..], sep);
      if s[0] == sep then [""] + rest else [[s[0]] + rest[0]] + rest[1..]
  }

  lemma ToLowerIdempotent(s: string)
    ensures ToLower(ToLower(s)) == ToLower(s)
  {
  }

  // ---- What the operations mean

  predicate Concat(s: string, a: string, b: string)
  {
    s == a + b
  }

  lemma SuffixIs(s: string, suffix: string)
    ensures HasSuffix(s, suffix) <==> exists p :: Concat(s, p, suffix)
  {
    if HasSuffix(s, suffix) {
      assert Concat(s, s[..|s| - |suffix|], suffix);
    }
  }

  lemma PrefixIs(s: string, prefix: string)
    ensures HasPrefix(s, prefix) <==> exists p :: Concat(s, prefix, p)
  {
    if HasPrefix(s, prefix) {
      assert Concat(s, prefix, s[|prefix|..]);
    }
  }

  lemma AffixesTrimmed(s: string, affix: string)
    ensures TrimPrefix(affix + s, affix) == s == TrimSuffix(s + affix, affix)
    ensures (forall p :: !Concat(s, affix, p)) ==> TrimPrefix(s, affix) == s
    ensures (forall p :: !Concat(s, p, affix)) ==> TrimSuffix(s, affix) == s
  {
    PrefixIs(s, affix);
    SuffixIs(s, affix);
  }

  /** The 26 capitals become the small letters in the same order, everything else stays. */
  lemma ToLowerIs(s: string, i: nat)
    requires i < |s|
    ensures |ToLower(s)| == |s|
    ensures 'A' <= s[i] <= 'Z' ==> 'a' <= ToLower(s)[i] <= 'z' && ToLower(s)[i] - 'a' == s[i] - 'A'
    ensures !('A' <= s[i] <= 'Z') ==> ToLower(s)[i] == s[i]
    ensures ToLower("ABCDEFGHIJKLMNOPQRSTUVWXYZ") == "abcdefghijklmnopqrstuvwxyz"
  {
  }

  lemma ToLowerConcat(a: string, b: string)
    ensures ToLower(a + b) == ToLower(a) + ToLower(b)
  {
  }

  /** An address is in a domain exactly if it ends with the domain in some capitalisation. */
  lemma InDomainIs(email: string, domain: string)
    ensures InDomain(email, domain) <==> exists p, d :: Concat(email, p, d) && ToLower(d) == ToLower(domain)
  {
    if InDomain(email, domain) {
      var n := |email| - |domain|;
      assert Concat(email, email[..n], email[n..]);
      assert ToLower(email)[n..] == ToLower(email[n..]);
    }
    if p, d :| Concat(email, p, d) && ToLower(d) == ToLower(domain) {
      ToLowerConcat(p, d);
    }
  }

  /** ASCII white space: space, tab, newline, vertical tab, form feed and carriage return. */
  lemma IsSpaceIs(c: char)
    ensures IsSpace(c) <==> c in [' ', '\t', '\n', 11 as char, 12 as char, '\r']
  {
  }

  /** The string begins and ends with no character of the cut set. */
  predicate Bare(s: string, cut: char -> bool)
  {
    s == "" || (!cut(s[0]) && !cut(s[|s| - 1]))
  }

  predicate All(s: string, cut: char -> bool)
  {
    forall i :: 0 <= i < |s| ==> cut(s[i])
  }

  lemma {:induction false} TrimLeftOf(l: string, s: string, cut: char -> bool)
    requires All(l, cut) && (s == "" || !cut(s[0]))
    ensures TrimLeft(l + s, cut) == s
  {
    if l == "" {
      assert l + s == s;
    } else {
      assert (l + s)[1..] == l[1..] + s;
      TrimLeftOf(l[1..], s, cut);
    }
  }

  lemma {:induction false} TrimRightOf(s: string, r: string, cut: char -> bool)
    requires All(r, cut) && (s == "" || !cut(s[|s| - 1]))
    ensures TrimRight(s + r, cut) == s
  {
    if r == "" {
      assert s + r == s;
    } else {
      assert (s + r)[..|s + r| - 1] == s + r[..|r| - 1];
      TrimRightOf(s, r[..|r| - 1], cut);
    }
  }

  lemma {:induction false} AllTrimmed(s: string, cut: char -> bool)
    requires All(s, cut)
    ensures TrimLeft(s, cut) == "" == Trim(s, cut)
  {
    TrimLeftOf(s, "", cut);
    assert s + "" == s;
  }

  /** Trimming removes exactly what stands around a bare string. */
  lemma TrimOf(l: string, s: string, r: string, cut: char -> bool)
    requires All(l, cut) && All(r, cut) && Bare(s, cut)
    ensures Trim(l + s + r, cut) == s
  {
    if s == "" {
      assert l + s + r == l + r;
      AllTrimmed(l + r, cut);
    } else {
      assert l + s + r == l + (s + r);
      TrimLeftOf(l, s + r, cut);
      TrimRightOf(s, r, cut);
    }
  }

  /** And every string is a bare one with something of the cut set around it. */
  lemma TrimParts(s: string, cut: char -> bool) returns (l: string, r: string)
    ensures s == l + Trim(s, cut) + r && All(l, cut) && All(r, cut) && Bare(Trim(s, cut), cut)
  {
    l := LeftPart(s, cut);
    var rest := TrimLeft(s, cut);
    r := RightPart(rest, cut);
    if Trim(s, cut) != "" {
      assert rest[0] == Trim(s, cut)[0];
    }
  }

  lemma {:induction false} LeftPart(s: string, cut: char -> bool) returns (l: string)
    ensures s == l + TrimLeft(s, cut) && All(l, cut)
  {
    l := "";
    if s != "" && cut(s[0]) {
      var rest := LeftPart(s[1..], cut);
      l := [s[0]] + rest;
      assert s == [s[0]] + s[1..];
    }
  }

  lemma {:induction false} RightPart(s: string, cut: char -> bool) returns (r: string)
    ensures s == TrimRight(s, cut) + r && All(r, cut)
  {
    r := "";
    if s != "" && cut(s[|s| - 1]) {
      var rest := RightPart(s[..|s| - 1], cut);
      r := rest + [s[|s| - 1]];
      assert s == s[..|s| - 1] + [s[|s| - 1]];
    }
  }

  /** The pieces with the separator between them. */
  function Join(parts: seq<string>, sep: char): string
    requires parts != []
  {
    if |parts| == 1 then parts[0] else parts[0] + [sep] + Join(parts[1..], sep)
  }

  /** Splitting loses nothing, and leaves no separator inside a piece. */
  lemma {:induction false} SplitJoins(s: string, sep: char)
    ensures Join(Split(s, sep), sep) == s
    ensures forall i :: 0 <= i < |Split(s, sep)| ==> sep !in Split(s, sep)[i]
  {
    if s != "" {
      var rest := Split(s[1..], sep);
      SplitJoins(s[1..], sep);
      assert s == [s[0]] + s[1..];
      if s[0] == sep {
        assert ([""] + rest)[1..] == rest;
      } else if |rest| > 1 {
        assert ([[s[0]] + rest[0]] + rest[1..])[1..] == rest[1..];
      }
    }
  }

  /** Pieces without separators are what splitting their join gives back. */
  lemma {:induction false} JoinSplits(parts: seq<string>, sep: char)
    requires parts != [] && forall i :: 0 <= i < |parts| ==> sep !in parts[i]
    ensures Split(Join(parts, sep), sep) == parts
    decreases |parts|, |parts[0]|
  {
    var s := Join(parts, sep);
    if parts[0] != "" {
      var shorter := [parts[0][1..]] + parts[1..];
      assert shorter[1..] == parts[1..];
      assert s[1..] == Join(shorter, sep);
      JoinSplits(shorter, sep);
      assert parts[0] == [parts[0][0]] + parts[0][1..];
    } else if |parts| > 1 {
      assert s == [sep] + Join(parts[1..], sep);
      assert s[1..] == Join(parts[1..], sep);
      JoinSplits(parts[1..], sep);
    }
  }
}
