/** `parseFragranceNotes`, shared verbatim by the product card and the
    product details modal: it splits a free-text notes string into the three
    tiers of the fragrance pyramid. */
module FragranceNotes {
  import opened Wrappers
  import opened Text
  import opened Seqs

  datatype Notes = Notes(top: string, heart: string, base: string)

  const NoNotes := Notes("", "", "")

  /** The three tags, matched case-insensitively. */
  const TopTag := "top"
  const HeartTag := "heart"
  const BaseTag := "base"

  /** The case-insensitive tag (given in lower case) occurs at `p`. */
  predicate LabelAt(s: string, p: nat, tag: string) {
    p + |tag| <= |s| && forall k :: 0 <= k < |tag| ==> LowerChar(s[p + k]) == tag[k]
  }

  /** The class `[:\s]` between a tag and its notes. */
  predicate IsGap(c: char) { c == ':' || IsSpace(c) }

  predicate AllGap(s: string) { forall i :: 0 <= i < |s| ==> IsGap(s[i]) }

  predicate NoSeparator(s: string) { forall i :: 0 <= i < |s| ==> !IsNoteSeparator(s[i]) }

  /** The end of the run of gap characters starting at `i`. */
  function GapEnd(s: string, i: nat): (e: nat)
    requires i <= |s|
    ensures i <= e <= |s|
    ensures AllGap(s[i..e])
    ensures e == |s| || !IsGap(s[e])
    decreases |s| - i
  {
    if i < |s| && IsGap(s[i]) then
      var e := GapEnd(s, i + 1);
      assert s[i..e] == [s[i]] + s[i + 1..e];
      e
    else i
  }

  /** The end of the run of non-separator characters starting at `i`. */
  function SeparatorEnd(s: string, i: nat): (e: nat)
    requires i <= |s|
    ensures i <= e <= |s|
    ensures NoSeparator(s[i..e])
    ensures e == |s| || IsNoteSeparator(s[e])
    decreases |s| - i
  {
    if i < |s| && !IsNoteSeparator(s[i]) then
      var e := SeparatorEnd(s, i + 1);
      assert s[i..e] == [s[i]] + s[i + 1..e];
      e
    else i
  }

  /** The capture of `/tag[:\s]+([^,;]+)/i` anchored at `p`, with the
      regular expression's backtracking: the greedy gap run is given back one
      character when nothing but a separator or the end follows it. */
  function MatchAt(s: string, p: nat, tag: string): Option<string>
  {
    if !LabelAt(s, p, tag) then None
    else
      var g := p + |tag|;
      var e := GapEnd(s, g);
      if e == g then None
      else if e < |s| && !IsNoteSeparator(s[e]) then Some(s[e..SeparatorEnd(s, e)])
      else if e - g >= 2 then Some([s[e - 1]])
      else None
  }

  /** `c` sits at `b`, after the tag at `p` and a run of gap characters, and
      is followed by a separator or the end of `s`. */
  predicate CaptureAt(s: string, p: nat, tag: string, b: nat, c: string) {
    && p + |tag| < b && b + |c| <= |s| && s[b..b + |c|] == c
    && AllGap(s[p + |tag|..b])
    && (b + |c| == |s| || IsNoteSeparator(s[b + |c|]))
  }

  /** A capture is a non-empty slice of the notes that follows the tag and
      one or more gap characters, contains no separator, and runs up to a
      separator or the end of the notes. */
  lemma MatchAtShape(s: string, p: nat, tag: string, c: string)
    requires MatchAt(s, p, tag) == Some(c)
    ensures LabelAt(s, p, tag)
    ensures c != [] && NoSeparator(c)
    ensures exists b :: CaptureAt(s, p, tag, b, c)
  {
    var g := p + |tag|;
    var e := GapEnd(s, g);
    assert e != g;
    if e < |s| && !IsNoteSeparator(s[e]) {
      var b := e;
      assert c == s[e..SeparatorEnd(s, e)];
      assert CaptureAt(s, p, tag, b, c);
    } else {
      assert e - g >= 2 && c == [s[e - 1]];
      var b := e - 1;
      forall k | 0 <= k < b - g ensures IsGap(s[g..b][k]) {
        assert s[g..b][k] == s[g..e][k];
      }
      assert !IsNoteSeparator(s[e - 1]) by { assert IsGap(s[g..e][b - g]); }
      assert CaptureAt(s, p, tag, b, c);
    }
  }

  /** The first `Some` among `f(p), f(p + 1), ..., f(n)`. */
  function FirstSome<T>(f: nat -> Option<T>, p: nat, n: nat): Option<T>
    decreases n + 1 - p
  {
    if p > n then None
    else
      match f(p)
      case Some(c) => Some(c)
      case None => FirstSome(f, p + 1, n)
  }

  /** The value found is the leftmost one: `f` gives it at some position and
      nothing before; finding nothing means `f` gives nothing anywhere. */
  lemma {:induction false} FirstSomeLeftmost<T>(f: nat -> Option<T>, p: nat, n: nat)
    ensures var r := FirstSome(f, p, n);
      && (r.None? ==> forall q: nat :: p <= q <= n ==> f(q).None?)
      && (r.Some? ==> exists q: nat :: (p <= q <= n && f(q) == r
                        && forall q': nat :: p <= q' < q ==> f(q').None?))
    decreases n + 1 - p
  {
    if p <= n && f(p).None? {
      FirstSomeLeftmost(f, p + 1, n);
      var r := FirstSome(f, p, n);
      if r.Some? {
        var q: nat :| p + 1 <= q <= n && f(q) == r
                 && forall q': nat :: p + 1 <= q' < q ==> f(q').None?;
        assert p <= q <= n && f(q) == r;
      }
    }
  }

  /** `s.match(/tag[:\s]+([^,;]+)/i)?.[1]`: the capture at the leftmost
      position where the pattern matches. */
  function Match(s: string, tag: string): Option<string> {
    FirstSome((q: nat) => MatchAt(s, q, tag), 0, |s|)
  }

  /** The match found is the leftmost one. */
  lemma MatchLeftmost(s: string, tag: string)
    ensures Match(s, tag).None? ==> forall q: nat :: q <= |s| ==> MatchAt(s, q, tag).None?
    ensures Match(s, tag).Some? ==> exists q: nat :: (q <= |s| && MatchAt(s, q, tag) == Match(s, tag)
                        && forall q': nat :: q' < q ==> MatchAt(s, q', tag).None?)
  {
    var f := (q: nat) => MatchAt(s, q, tag);
    FirstSomeLeftmost(f, 0, |s|);
    if Match(s, tag).None? {
      forall q: nat | q <= |s| ensures MatchAt(s, q, tag).None? {
        assert f(q).None?;
      }
    } else {
      var q: nat :| q <= |s| && f(q) == Match(s, tag) && forall q': nat :: q' < q ==> f(q').None?;
      assert MatchAt(s, q, tag) == Match(s, tag);
      forall q': nat | q' < q ensures MatchAt(s, q', tag).None? {
        assert f(q').None?;
      }
    }
  }

  function TrimCapture(m: Option<string>): string {
    match m
    case Some(c) => Trim(c)
    case None => ""
  }

  /** `notes.split(/[,;]/).map(p => p.trim()).filter(Boolean)`. */
  function Parts(s: string): (parts: seq<string>)
    ensures forall k :: 0 <= k < |parts| ==> parts[k] != ""
  {
    var pieces := SplitNotes(s);
    Filter(seq(|pieces|, i requires 0 <= i < |pieces| => Trim(pieces[i])), (t: string) => t != "")
  }

  /** The tiers when some tag matches: each tag's trimmed capture. */
  function Tagged(s: string): Notes {
    Notes(TrimCapture(Match(s, TopTag)), TrimCapture(Match(s, HeartTag)), TrimCapture(Match(s, BaseTag)))
  }

  /** The tiers when no tag matches: the first three parts, in order. */
  function FromParts(parts: seq<string>): Notes {
    if |parts| >= 3 then Notes(parts[0], parts[1], parts[2])
    else if |parts| == 2 then Notes(parts[0], parts[1], "")
    else if |parts| == 1 then Notes(parts[0], "", "")
    else NoNotes
  }

  function Labelled(s: string): bool {
    Match(s, TopTag).Some? || Match(s, HeartTag).Some? || Match(s, BaseTag).Some?
  }

  /** `parseFragranceNotes(notes)`; `None` is an undefined notes field. */
  function Parse(notes: Option<string>): Notes {
    match notes
    case None => NoNotes
    case Some(s) =>
      if s == "" then NoNotes
      else if Labelled(s) then Tagged(s)
      else FromParts(Parts(s))
  }

  /** How many tiers are filled. */
  function Filled(n: Notes): nat {
    (if n.top != "" then 1 else 0) + (if n.heart != "" then 1 else 0) + (if n.base != "" then 1 else 0)
  }

  /** A missing or empty notes field gives three empty tiers. */
  lemma ParseEmpty()
    ensures Parse(None) == NoNotes && Parse(Some("")) == NoNotes
  {
  }

  /** When any tag matches, each tier is its own tag's trimmed capture,
      and a tier whose tag does not match is empty. */
  lemma ParseLabelled(s: string)
    requires s != "" && Labelled(s)
    ensures Parse(Some(s)) == Tagged(s)
    ensures Parse(Some(s)).top == TrimCapture(Match(s, TopTag))
    ensures Parse(Some(s)).heart == TrimCapture(Match(s, HeartTag))
    ensures Parse(Some(s)).base == TrimCapture(Match(s, BaseTag))
    ensures Match(s, HeartTag).None? ==> Parse(Some(s)).heart == ""
  {
  }

  /** The first three parts fill the tiers in order, and exactly
      min(3, parts) tiers are filled when no part is empty. */
  lemma FromPartsShape(parts: seq<string>)
    requires forall k :: 0 <= k < |parts| ==> parts[k] != ""
    ensures var n := FromParts(parts);
      && Filled(n) == Min(3, |parts|)
      && n.top == (if |parts| > 0 then parts[0] else "")
      && n.heart == (if |parts| > 1 then parts[1] else "")
      && n.base == (if |parts| > 2 then parts[2] else "")
  {
  }

  /** With no tag, the tiers are the first three non-empty trimmed pieces
      in order, and exactly min(3, pieces) tiers are filled. */
  lemma ParseUnlabelled(s: string)
    requires !Labelled(s)
    ensures var n := Parse(Some(s)); var parts := Parts(s);
      && Filled(n) == Min(3, |parts|)
      && n.top == (if |parts| > 0 then parts[0] else "")
      && n.heart == (if |parts| > 1 then parts[1] else "")
      && n.base == (if |parts| > 2 then parts[2] else "")
  {
    if s == "" {
      assert SplitNotes(s) == [""];
      assert Parts(s) == [];
    } else {
      assert Parse(Some(s)) == FromParts(Parts(s));
    }
    FromPartsShape(Parts(s));
  }

  predicate Clean(t: string) { Trim(t) == t && NoSeparator(t) }

  lemma NoSeparatorSlice(t: string, i: nat, j: nat)
    requires NoSeparator(t) && i <= j <= |t|
    ensures NoSeparator(t[i..j])
  {
    forall k | 0 <= k < j - i ensures !IsNoteSeparator(t[i..j][k]) {
      assert t[i..j][k] == t[i + k];
    }
  }

  lemma TrimKeepsNoSeparator(t: string)
    requires NoSeparator(t)
    ensures Clean(Trim(t))
  {
    TrimIdempotent(t);
    TrimNoSeparator(t);
  }

  lemma TrimNoSeparator(t: string)
    requires NoSeparator(t)
    ensures NoSeparator(Trim(t))
  {
    var a := TrimStart(t);
    NoSeparatorSlice(t, |t| - |a|, |t|);
    assert a == t[|t| - |a|..|t|];
    NoSeparatorSlice(a, 0, |Trim(t)|);
    assert Trim(t) == a[0..|Trim(t)|];
  }

  lemma CaptureClean(m: Option<string>, s: string, tag: string)
    requires m == Match(s, tag)
    ensures Clean(TrimCapture(m))
  {
    if m.Some? {
      MatchLeftmost(s, tag);
      var q: nat :| q <= |s| && MatchAt(s, q, tag) == m;
      MatchAtShape(s, q, tag, m.value);
      TrimKeepsNoSeparator(m.value);
    }
  }

  lemma PartsClean(s: string)
    ensures forall k :: 0 <= k < |Parts(s)| ==> Clean(Parts(s)[k])
  {
    var pieces := SplitNotes(s);
    var trimmed := seq(|pieces|, i requires 0 <= i < |pieces| => Trim(pieces[i]));
    forall i | 0 <= i < |trimmed| ensures Clean(trimmed[i]) {
      TrimKeepsNoSeparator(pieces[i]);
    }
    FilterMembers(trimmed, (t: string) => t != "");
    forall k | 0 <= k < |Parts(s)| ensures Clean(Parts(s)[k]) {
      assert Parts(s)[k] in trimmed;
    }
  }

  lemma TaggedClean(s: string)
    ensures Clean(Tagged(s).top) && Clean(Tagged(s).heart) && Clean(Tagged(s).base)
  {
    CaptureClean(Match(s, TopTag), s, TopTag);
    CaptureClean(Match(s, HeartTag), s, HeartTag);
    CaptureClean(Match(s, BaseTag), s, BaseTag);
  }

  lemma ParseLabelledClean(s: string)
    requires s != "" && Labelled(s)
    ensures var n := Parse(Some(s)); Clean(n.top) && Clean(n.heart) && Clean(n.base)
  {
    ParseLabelled(s);
    TaggedClean(s);
  }

  lemma ParseUnlabelledClean(s: string)
    requires !Labelled(s)
    ensures var n := Parse(Some(s)); Clean(n.top) && Clean(n.heart) && Clean(n.base)
  {
    ParseUnlabelled(s);
    PartsClean(s);
  }

  /** Whatever the input, every tier is trimmed and free of separators. */
  lemma ParseClean(notes: Option<string>)
    ensures var n := Parse(notes); Clean(n.top) && Clean(n.heart) && Clean(n.base)
  {
    if notes.Some? && notes.value != "" {
      if Labelled(notes.value) {
        ParseLabelledClean(notes.value);
      } else {
        ParseUnlabelledClean(notes.value);
      }
    }
  }
}
