/** The server configuration's `split_origins` validator (server/app/config.py). */
module Config {
  /** `cors_origins` as it arrives: a comma-separated string or a list already. */
  datatype OriginsValue = Text(s: string) | Items(items: seq<string>)

  /** Python's `str.isspace` for a single character. */
  predicate IsSpace(c: char) {
    ('\t' <= c <= '\r') || ('\U{1C}' <= c <= '\U{1F}') || c == ' '
    || c == '\U{85}' || c == '\U{A0}' || c == '\U{1680}'
    || ('\U{2000}' <= c <= '\U{200A}') || c == '\U{2028}' || c == '\U{2029}'
    || c == '\U{202F}' || c == '\U{205F}' || c == '\U{3000}'
  }

  /** `value.split(",")`: the pieces between commas, always at least one. */
  function Split(s: string): (r: seq<string>)
    ensures |r| >= 1
    ensures forall i :: 0 <= i < |r| ==> ',' !in r[i]
  {
    if s == [] then [""]
    else
      var rest := Split(s[1..]);
      if s[0] == ',' then [""] + rest else [[s[0]] + rest[0]] + rest[1..]
  }

  /** `",".join(pieces)`. */
  function Join(pieces: seq<string>): string
    requires |pieces| >= 1
  {
    if |pieces| == 1 then pieces[0] else pieces[0] + "," + Join(pieces[1..])
  }

  /** Splitting loses nothing: joining the pieces with commas gives back the
      input, so the pieces stand in the order of the input. */
  lemma {:induction false} SplitJoin(s: string)
    ensures Join(Split(s)) == s
  {
    if s != [] {
      var rest := Split(s[1..]);
      SplitJoin(s[1..]);
      assert s == [s[0]] + s[1..];
      if s[0] != ',' && |rest| > 1 {
        assert Split(s)[1..] == rest[1..];
      }
    }
  }

  /** The index of the first non-whitespace character at or after `i`, or `|s|`. */
  function SkipSpace(s: string, i: nat): (j: nat)
    requires i <= |s|
    ensures i <= j <= |s|
    ensures forall k :: i <= k < j ==> IsSpace(s[k])
    ensures j == |s| || !IsSpace(s[j])
    decreases |s| - i
  {
    if i == |s| || !IsSpace(s[i]) then i else SkipSpace(s, i + 1)
  }

  /** The index just past the last non-whitespace character in `s[lo..j]`, or `lo`. */
  function SkipSpaceBack(s: string, lo: nat, j: nat): (e: nat)
    requires lo <= j <= |s|
    ensures lo <= e <= j
    ensures forall k :: e <= k < j ==> IsSpace(s[k])
    ensures e == lo || !IsSpace(s[e - 1])
    decreases j
  {
    if j == lo || !IsSpace(s[j - 1]) then j else SkipSpaceBack(s, lo, j - 1)
  }

  /** The left half of `str.strip()` (`str.lstrip()`): the suffix left after
      the leading whitespace. */
  function TrimLeft(s: string): (r: string)
    ensures |r| <= |s| && r == s[|s| - |r|..]
    ensures forall k :: 0 <= k < |s| - |r| ==> IsSpace(s[k])
    ensures r == [] || !IsSpace(r[0])
  {
    s[StripStart(s)..]
  }

  /** The right half of `str.strip()` (`str.rstrip()`): the prefix left
      before the trailing whitespace. */
  function TrimRight(s: string): (r: string)
    ensures |r| <= |s| && r == s[..|r|]
    ensures forall k :: |r| <= k < |s| ==> IsSpace(s[k])
    ensures r == [] || !IsSpace(r[|r| - 1])
  {
    s[..SkipSpaceBack(s, 0, |s|)]
  }

  /** Where `str.strip()` starts: the length of the leading whitespace. */
  function StripStart(s: string): (a: nat)
    ensures a <= |s|
    ensures forall k :: 0 <= k < a ==> IsSpace(s[k])
    ensures a == |s| || !IsSpace(s[a])
  {
    SkipSpace(s, 0)
  }

  /** `str.strip()`: drop whitespace at both ends. What is left is the
      contiguous middle of the input; everything around it is whitespace. */
  function Strip(s: string): (r: string)
    ensures r == [] || (!IsSpace(r[0]) && !IsSpace(r[|r| - 1]))
    ensures StripStart(s) + |r| <= |s|
    ensures r == s[StripStart(s)..StripStart(s) + |r|]
    ensures forall k :: StripStart(s) + |r| <= k < |s| ==> IsSpace(s[k])
  {
    var a := StripStart(s);
    s[a..SkipSpaceBack(s, a, |s|)]
  }

  /** Python's definition of `strip()`: strip the left end, then the right. */
  lemma StripIsTrimBoth(s: string)
    ensures Strip(s) == TrimRight(TrimLeft(s))
  {
    var a := StripStart(s);
    var t := TrimLeft(s);
    assert t == s[a..];
    assert Strip(s) == t[..|Strip(s)|];
  }

  /** An origin as `split_origins` keeps it: non-empty, no whitespace at either end. */
  predicate Clean(x: string) {
    x != [] && !IsSpace(x[0]) && !IsSpace(x[|x| - 1])
  }

  /** `[item.strip() for item in pieces if item.strip()]`. */
  function StripNonEmpty(pieces: seq<string>): (r: seq<string>)
    ensures |r| <= |pieces|
    ensures forall k :: 0 <= k < |r| ==> Clean(r[k])
    ensures (forall k :: 0 <= k < |pieces| ==> ',' !in pieces[k]) ==> forall k :: 0 <= k < |r| ==> ',' !in r[k]
  {
    if pieces == [] then []
    else
      var head := Strip(pieces[0]);
      var rest := StripNonEmpty(pieces[1..]);
      assert forall k :: 0 <= k < |pieces| - 1 ==> pieces[1..][k] == pieces[k + 1];
      if head != [] then
        assert Clean(head);
        var r := [head] + rest;
        assert forall k :: 1 <= k < |r| ==> r[k] == rest[k - 1];
        r
      else rest
  }

  /** `split_origins`: a list passes unchanged; a string becomes its
      comma-separated items, stripped, with the empty ones dropped. */
  function SplitOrigins(value: OriginsValue): (r: seq<string>)
    ensures value.Items? ==> r == value.items
    ensures value.Text? ==> forall k :: 0 <= k < |r| ==> Clean(r[k]) && ',' !in r[k]
    ensures value.Text? ==> forall k :: 0 <= k < |Split(value.s)| && Strip(Split(value.s)[k]) != [] ==>
      Strip(Split(value.s)[k]) in r
    ensures value.Text? ==> forall x :: x in r ==> exists k :: 0 <= k < |Split(value.s)| && x == Strip(Split(value.s)[k])
  {
    match value
    case Items(items) => items
    case Text(s) =>
      StripNonEmptyFound(Split(s));
      StripNonEmptyFrom(Split(s));
      StripNonEmpty(Split(s))
  }

  /** Every piece that does not strip to nothing is kept, stripped. */
  lemma {:induction false} StripNonEmptyFound(pieces: seq<string>)
    ensures forall k :: 0 <= k < |pieces| && Strip(pieces[k]) != [] ==> Strip(pieces[k]) in StripNonEmpty(pieces)
  {
    if pieces != [] {
      StripNonEmptyFound(pieces[1..]);
      forall k | 1 <= k < |pieces| && Strip(pieces[k]) != []
        ensures Strip(pieces[k]) in StripNonEmpty(pieces)
      {
        assert pieces[k] == pieces[1..][k - 1];
      }
    }
  }

  /** Every kept item is the stripped text of some piece. */
  lemma {:induction false} StripNonEmptyFrom(pieces: seq<string>)
    ensures forall x :: x in StripNonEmpty(pieces) ==> exists k :: 0 <= k < |pieces| && x == Strip(pieces[k])
  {
    if pieces != [] {
      StripNonEmptyFrom(pieces[1..]);
      forall x | x in StripNonEmpty(pieces)
        ensures exists k :: 0 <= k < |pieces| && x == Strip(pieces[k])
      {
        if x != Strip(pieces[0]) {
          assert x in StripNonEmpty(pieces[1..]);
          var j :| 0 <= j < |pieces[1..]| && x == Strip(pieces[1..][j]);
          assert pieces[1..][j] == pieces[j + 1];
        }
      }
    }
  }

  /** A piece made only of whitespace strips to nothing. */
  lemma {:induction false} StripAllSpace(s: string)
    requires forall k :: 0 <= k < |s| ==> IsSpace(s[k])
    ensures Strip(s) == []
  {
  }

  /** A string of commas and whitespace only yields no origins. */
  lemma {:induction false} OnlySeparators(s: string)
    requires forall k :: 0 <= k < |s| ==> s[k] == ',' || IsSpace(s[k])
    ensures SplitOrigins(Text(s)) == []
  {
    SplitJoin(s);
    var pieces := Split(s);
    forall k | 0 <= k < |pieces|
      ensures forall c :: c in pieces[k] ==> IsSpace(c)
    {
      JoinContains(pieces, k);
    }
    AllSpaceStripNonEmpty(pieces);
  }

  /** A piece with a character that is neither a comma nor whitespace yields
      at least one origin: the converse of `OnlySeparators`. */
  lemma {:induction false} SomeOrigin(s: string, i: nat)
    requires i < |s| && s[i] != ',' && !IsSpace(s[i])
    ensures |SplitOrigins(Text(s))| >= 1
  {
    var m := SplitCovers(s, i);
    StripKeepsNonSpace(Split(s)[m], s[i]);
  }

  /** Every character other than a comma lies in some piece of `Split`. */
  lemma {:induction false} SplitCovers(s: string, i: nat) returns (m: nat)
    requires i < |s| && s[i] != ','
    ensures m < |Split(s)| && s[i] in Split(s)[m]
  {
    var rest := Split(s[1..]);
    if i == 0 {
      m := 0;
    } else {
      var m' := SplitCovers(s[1..], i - 1);
      if s[0] == ',' {
        m := m' + 1;
      } else if m' == 0 {
        m := 0;
      } else {
        m := m';
      }
    }
  }

  /** Stripping never removes a non-whitespace character. */
  lemma {:induction false} StripKeepsNonSpace(p: string, c: char)
    requires c in p && !IsSpace(c)
    ensures c in Strip(p)
  {
    var a := StripStart(p);
    var r := Strip(p);
    var j :| 0 <= j < |p| && p[j] == c;
    assert a <= j < a + |r|;
    assert r[j - a] == c;
  }

  /** One piece yields its stripped text, or nothing when that is empty. */
  lemma StripNonEmptyOne(p: string)
    ensures StripNonEmpty([p]) == if Strip(p) == [] then [] else [Strip(p)]
  {
    assert [p][1..] == [];
  }

  /** Every character of a piece occurs in the joined string. */
  lemma {:induction false} JoinContains(pieces: seq<string>, k: nat)
    requires k < |pieces|
    ensures forall c :: c in pieces[k] ==> c in Join(pieces)
  {
    if |pieces| > 1 && k > 0 {
      JoinContains(pieces[1..], k - 1);
    }
  }

  lemma {:induction false} AllSpaceStripNonEmpty(pieces: seq<string>)
    requires forall k :: 0 <= k < |pieces| ==> forall c :: c in pieces[k] ==> IsSpace(c)
    ensures StripNonEmpty(pieces) == []
  {
    if pieces != [] {
      StripAllSpace(pieces[0]);
      AllSpaceStripNonEmpty(pieces[1..]);
    }
  }

  /** A comma in the input splits it into the pieces before and after it. */
  lemma {:induction false} SplitAtComma(a: string, b: string)
    ensures Split(a + "," + b) == Split(a) + Split(b)
  {
    if a == [] {
      assert a + "," + b == [','] + b;
      assert (a + "," + b)[1..] == b;
    } else {
      assert (a + "," + b)[1..] == a[1..] + "," + b;
      SplitAtComma(a[1..], b);
    }
  }

  /** Stripping and dropping empty items works piece by piece. */
  lemma {:induction false} StripNonEmptyAppend(p: seq<string>, q: seq<string>)
    ensures StripNonEmpty(p + q) == StripNonEmpty(p) + StripNonEmpty(q)
  {
    if p == [] {
      assert p + q == q;
    } else {
      assert (p + q)[0] == p[0];
      assert (p + q)[1..] == p[1..] + q;
      StripNonEmptyAppend(p[1..], q);
    }
  }

  /** The origins before a comma come first, in order, then those after it. */
  lemma SplitOriginsOrder(a: string, b: string)
    ensures SplitOrigins(Text(a + "," + b)) == SplitOrigins(Text(a)) + SplitOrigins(Text(b))
  {
    SplitAtComma(a, b);
    StripNonEmptyAppend(Split(a), Split(b));
  }
}
