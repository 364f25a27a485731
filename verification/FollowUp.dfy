/** The follow-up tag: stripping it from text, resolving what a reply asks for, and what is left
    of a tag when the text is stripped piece by piece. */
module FollowUp {
  import opened Basics

  // ----- The follow-up tag -----

  const TAG := "[[follow_up]]"

  /** Which characters are whitespace, left open but for what the tag needs. */
  type Blank = char -> bool

  ghost predicate Sane(blank: Blank) {
    blank(' ') && forall k :: 0 <= k < |TAG| ==> !blank(TAG[k])
  }

  predicate At(s: string, k: nat): (found: bool)
    ensures found ==> k + |TAG| <= |s|
  {
    k + |TAG| <= |s| && s[k..k + |TAG|] == TAG
  }

  ghost predicate Tagged(s: string) { exists k: nat :: At(s, k) }

  lemma AtPart(s: string, lo: nat, hi: nat, k: nat)
    requires lo <= hi <= |s|
    ensures At(s[lo..hi], k) <==> lo + k + |TAG| <= hi && At(s, lo + k)
  {
    if lo + k + |TAG| <= hi {
      var a, b := s[lo..hi][k..k + |TAG|], s[lo + k..lo + k + |TAG|];
      assert forall j :: 0 <= j < |a| ==> a[j] == b[j];
    }
  }

  lemma TagChar(s: string, k: nat, l: nat)
    requires At(s, k) && l < |TAG|
    ensures s[k + l] == TAG[l]
  {
    assert s[k + l] == s[k..k + |TAG|][l];
  }

  lemma TagCharIsSolid(blank: Blank, l: nat)
    requires Sane(blank) && l < |TAG|
    ensures !blank(TAG[l])
  {}

  lemma TagIsSolid(blank: Blank, s: string, k: nat, j: nat)
    requires Sane(blank) && At(s, k) && k <= j < k + |TAG|
    ensures !blank(s[j])
  {
    hide At, Sane;
    TagChar(s, k, j - k);
    TagCharIsSolid(blank, j - k);
  }

  lemma AtTail(s: string, j: nat)
    requires s != [] && 0 < j
    ensures At(s, j) <==> At(s[1..], j - 1)
  {
    AtPart(s, 1, |s|, j - 1);
    assert s[1..|s|] == s[1..];
  }

  /** The first occurrence, or the length of the text. */
  function Find(s: string): (k: nat)
    ensures k <= |s| && (k < |s| ==> At(s, k))
    ensures forall j: nat :: j < k ==> !At(s, j)
  {
    if s == [] || At(s, 0) then 0
    else
      assert forall j: nat :: 0 < j ==> (At(s, j) <==> At(s[1..], j - 1)) by {
        forall j: nat | 0 < j ensures At(s, j) <==> At(s[1..], j - 1) { AtTail(s, j); }
      }
      1 + Find(s[1..])
  }

  /** Where the whitespace run that ends at `k` begins, and where one at 0 ends. */
  function RunBefore(blank: Blank, s: string, k: nat): (i: nat)
    requires k <= |s|
    ensures i <= k && (forall j :: i <= j < k ==> blank(s[j])) && (0 < i ==> !blank(s[i - 1]))
  {
    if 0 < k && blank(s[k - 1]) then RunBefore(blank, s, k - 1) else k
  }

  function SkipRun(blank: Blank, s: string): (rest: string)
    ensures |rest| <= |s|
    ensures rest == s[|s| - |rest|..]
    ensures forall j :: 0 <= j < |s| - |rest| ==> blank(s[j])
    ensures 0 < |rest| ==> !blank(rest[0])
  {
    if s != [] && blank(s[0]) then SkipRun(blank, s[1..]) else s
  }

  /** Every tag, with the whitespace around it, becomes one space. */
  function Strip(blank: Blank, s: string): (r: string)
    ensures s != [] ==> r != []
    decreases |s|
  {
    var k := Find(s);
    if k == |s| then s
    else s[..RunBefore(blank, s, k)] + " " + Strip(blank, SkipRun(blank, s[k + |TAG|..]))
  }

  lemma NoTagAcross(blank: Blank, a: string, b: string)
    requires Sane(blank) && !Tagged(a) && !Tagged(b)
    ensures !Tagged(a + " " + b)
  {
    hide At;
    var s := a + " " + b;
    assert s[0..|a|] == a && s[|a| + 1..|s|] == b;
    forall k: nat
      ensures !At(s, k)
    {
      AtPart(s, 0, |a|, k);
      if k > |a| {
        AtPart(s, |a| + 1, |s|, k - |a| - 1);
      } else if At(s, k) && |a| < k + |TAG| {
        assert s[|a|] == ' ';
        TagIsSolid(blank, s, k, |a|);
      }
    }
  }

  lemma {:induction false} NoTagRemains(blank: Blank, s: string)
    requires Sane(blank)
    ensures !Tagged(Strip(blank, s))
    decreases |s|
  {
    hide At, Find, RunBefore, SkipRun, Sane;
    var k := Find(s);
    if k < |s| {
      var i := RunBefore(blank, s, k);
      var rest := SkipRun(blank, s[k + |TAG|..]);
      NoTagRemains(blank, rest);
      BeforeTheFirst(s, i, k);
      NoTagAcross(blank, s[..i], Strip(blank, rest));
    }
  }

  lemma BeforeTheFirst(s: string, i: nat, k: nat)
    requires i <= k <= |s| && forall j: nat :: j < k ==> !At(s, j)
    ensures !Tagged(s[..i])
  {
    hide At;
    assert s[0..i] == s[..i];
    forall j: nat
      ensures !At(s[..i], j)
    {
      AtPart(s, 0, i, j);
    }
  }

  lemma UntaggedIsKept(blank: Blank, s: string)
    requires Sane(blank)
    ensures !Tagged(s) ==> Strip(blank, s) == s
    ensures Strip(blank, Strip(blank, s)) == Strip(blank, s)
  {
    NoTagRemains(blank, s);
  }

  ghost predicate AllBlank(blank: Blank, s: string) { forall k :: 0 <= k < |s| ==> blank(s[k]) }

  /** No tag begins before `k`. */
  ghost predicate NoneBefore(s: string, k: nat) { forall j: nat :: j < k ==> !At(s, j) }

  /** A tag with the whitespace around it, wherever it stands first, is replaced by one space and
      nothing else changes; with `UntaggedIsKept` this says what becomes of every text. */
  lemma StripReplaces(blank: Blank, s: string, a: string, w: string, v: string, b: string)
    requires s == a + w + TAG + v + b && NoneBefore(s, |a| + |w|)
    requires AllBlank(blank, w) && AllBlank(blank, v)
    requires (a != [] ==> !blank(a[|a| - 1])) && (b != [] ==> !blank(b[0]))
    ensures Strip(blank, s) == a + " " + Strip(blank, b)
  {
    hide At, Strip, Find, RunBefore, SkipRun, AllBlank, NoneBefore;
    var k := |a| + |w|;
    Pieces(s, a, w, v, b);
    FoundAt(s, k);
    BlankBefore(blank, s, a, w);
    BlankAfter(blank, v, b);
    StripUnfolds(blank, s);
  }

  lemma Pieces(s: string, a: string, w: string, v: string, b: string)
    requires s == a + w + TAG + v + b
    ensures var k := |a| + |w|;
      && k + |TAG| <= |s| && At(s, k) && s[..k] == a + w && s[..|a|] == a && s[k + |TAG|..] == v + b
  {
    Middle(a + w, TAG, v + b);
    assert s == (a + w) + TAG + (v + b);
  }

  lemma Middle(x: string, tag: string, y: string)
    ensures (x + tag + y)[..|x|] == x && (x + tag + y)[|x|..|x| + |tag|] == tag && (x + tag + y)[|x| + |tag|..] == y
  {}

  lemma FoundAt(s: string, k: nat)
    requires At(s, k) && NoneBefore(s, k)
    ensures Find(s) == k
  {}

  lemma {:induction false} BlankBefore(blank: Blank, s: string, a: string, w: string)
    requires |a| + |w| <= |s| && s[..|a| + |w|] == a + w && AllBlank(blank, w) && (a != [] ==> !blank(a[|a| - 1]))
    ensures RunBefore(blank, s, |a| + |w|) == |a|
    decreases |w|
  {
    var k := |a| + |w|;
    if w != [] {
      assert s[k - 1] == (a + w)[k - 1] == w[|w| - 1];
      assert s[..k - 1] == a + w[..|w| - 1];
      BlankBefore(blank, s, a, w[..|w| - 1]);
    } else if a != [] {
      assert s[k - 1] == (a + w)[k - 1] == a[|a| - 1];
    }
  }

  lemma {:induction false} BlankAfter(blank: Blank, v: string, b: string)
    requires AllBlank(blank, v) && (b != [] ==> !blank(b[0]))
    ensures SkipRun(blank, v + b) == b
    decreases |v|
  {
    if v == [] {
      assert v + b == b;
    } else {
      assert (v + b)[1..] == v[1..] + b;
      BlankAfter(blank, v[1..], b);
    }
  }

  lemma StripUnfolds(blank: Blank, s: string)
    ensures var k := Find(s);
      k < |s| ==>
        Strip(blank, s) == s[..RunBefore(blank, s, k)] + " " + Strip(blank, SkipRun(blank, s[k + |TAG|..]))
  {}

  function RunAfter(blank: Blank, s: string): string {
    s[..RunBefore(blank, s, |s|)]
  }

  function Trim(blank: Blank, s: string): string {
    RunAfter(blank, SkipRun(blank, s))
  }

  lemma PartIsUntagged(s: string, lo: nat, hi: nat)
    requires lo <= hi <= |s| && !Tagged(s)
    ensures !Tagged(s[lo..hi])
  {
    hide At;
    forall k: nat
      ensures !At(s[lo..hi], k)
    {
      AtPart(s, lo, hi, k);
    }
  }

  datatype Mode = Always | Never | Auto

  datatype Resolution = Resolution(followUp: bool, text: string)

  predicate EndsAsQuestion(s: string) {
    s != [] && (s[|s| - 1] == '?' || s[|s| - 1] == '\U{FF1F}')
  }

  function Resolve(blank: Blank, reply: string, mode: Mode): Resolution {
    var trimmed := Trim(blank, reply);
    var clean := Trim(blank, Strip(blank, trimmed));
    match mode
    case Always => Resolution(true, clean)
    case Never => Resolution(false, clean)
    case Auto =>
      if Find(trimmed) < |trimmed| then Resolution(true, clean)
      else Resolution(EndsAsQuestion(trimmed), trimmed)
  }

  /** The recorded reply never shows the tag or loose whitespace, and is the same in every mode;
      the mic stays open always, never, or exactly for a tag or a question. */
  lemma ResolvedReply(blank: Blank, reply: string, mode: Mode)
    requires Sane(blank)
    ensures var r := Resolve(blank, reply, mode);
            && !Tagged(r.text)
            && (r.text != [] ==> !blank(r.text[0]) && !blank(r.text[|r.text| - 1]))
            && r.text == Trim(blank, Strip(blank, Trim(blank, reply)))
            && (mode.Always? ==> r.followUp) && (mode.Never? ==> !r.followUp)
            && (mode.Auto? ==> (r.followUp <==> Tagged(reply) || EndsAsQuestion(Trim(blank, reply))))
  {
    hide Sane, Trim, Strip;
    var trimmed := Trim(blank, reply);
    Trimmed(blank, reply);
    NoTagRemains(blank, trimmed);
    Trimmed(blank, Strip(blank, trimmed));
    TagSurvivesTrim(blank, reply);
    UntaggedIsKept(blank, trimmed);
    TrimTwice(blank, reply);
  }

  lemma TrimTwice(blank: Blank, s: string)
    ensures Trim(blank, Trim(blank, s)) == Trim(blank, s)
  {
    Trimmed(blank, s);
    var t := Trim(blank, s);
    if t != [] {
      assert SkipRun(blank, t) == t;
      assert t[..|t|] == t;
    }
  }

  lemma Rejoined(s: string, i: nat)
    requires i <= |s|
    ensures s == s[..i] + s[i..]
  {}

  /** Trimming takes whitespace off both ends and nothing else. */
  lemma TrimmedIsInside(blank: Blank, s: string) returns (w: string, v: string)
    ensures s == w + Trim(blank, s) + v && AllBlank(blank, w) && AllBlank(blank, v)
  {
    hide SkipRun, RunBefore;
    var u := SkipRun(blank, s);
    var i := RunBefore(blank, u, |u|);
    w, v := s[..|s| - |u|], u[i..];
    Rejoined(s, |s| - |u|);
    Rejoined(u, i);
    assert w + (u[..i] + v) == w + u[..i] + v;
  }

  lemma Trimmed(blank: Blank, s: string)
    ensures var t := Trim(blank, s);
            && (t != [] ==> !blank(t[0]) && !blank(t[|t| - 1]))
            && (!Tagged(s) ==> !Tagged(t))
  {
    hide At, SkipRun, RunBefore;
    var u := SkipRun(blank, s);
    var lo := |s| - |u|;
    if !Tagged(s) {
      PartIsUntagged(s, lo, lo + |Trim(blank, s)|);
      assert s[lo..lo + |Trim(blank, s)|] == Trim(blank, s);
    }
  }

  lemma TagSurvivesTrim(blank: Blank, s: string)
    requires Sane(blank)
    ensures Tagged(s) <==> Tagged(Trim(blank, s))
  {
    hide At, SkipRun, RunBefore;
    Trimmed(blank, s);
    if Tagged(s) {
      var k: nat :| At(s, k);
      var u, t := SkipRun(blank, s), Trim(blank, s);
      var lo := |s| - |u|;
      TagIsSolid(blank, s, k, k);
      AtPart(s, lo, |s|, k - lo);
      assert s[lo..|s|] == u;
      TagIsSolid(blank, u, k - lo, k - lo + |TAG| - 1);
      AtPart(u, 0, |t|, k - lo);
      assert u[0..|t|] == t;
    }
  }

  // ----- Pieces -----

  function Concat(parts: seq<string>): string {
    if parts == [] then "" else Concat(parts[..|parts| - 1]) + parts[|parts| - 1]
  }

  lemma ConcatAfter(parts: seq<string>, s: string)
    ensures Concat(parts + [s]) == Concat(parts) + s
  {}

  function StripAll(blank: Blank, parts: seq<string>): (r: seq<string>)
    ensures |r| == |parts|
    ensures forall k :: 0 <= k < |parts| ==> r[k] == Strip(blank, parts[k])
  {
    seq(|parts|, k requires 0 <= k < |parts| => Strip(blank, parts[k]))
  }

  // ----- A tag across pieces -----

  /** The text ends with the first `j` characters of a tag, or begins with the others. */
  predicate Ends(s: string, j: nat)
    requires j <= |TAG|
  {
    j <= |s| && s[|s| - j..] == TAG[..j]
  }

  predicate Starts(s: string, j: nat)
    requires j <= |TAG|
  {
    |TAG| - j <= |s| && s[..|TAG| - j] == TAG[j..]
  }

  /** Some tag begins in `x` and ends in `y`. */
  ghost predicate Meets(x: string, y: string) {
    exists j: nat :: 0 < j < |TAG| && Ends(x, j) && Starts(y, j)
  }

  /** No proper end of the tag is also a beginning of it: they differ at `l`. */
  lemma NoBorder(j: nat) returns (l: nat)
    requires 0 < j < |TAG|
    ensures l < j && TAG[|TAG| - j + l] != TAG[l]
  {
    l := if j == |TAG| - 1 then 1 else 0;
  }

  lemma EndsChar(s: string, j: nat, l: nat)
    requires j <= |TAG| && Ends(s, j) && l < j
    ensures j <= |s| && s[|s| - j + l] == TAG[l]
  {
    assert s[|s| - j..][l] == TAG[..j][l];
  }

  lemma StartsChar(s: string, j: nat, l: nat)
    requires j <= |TAG| && Starts(s, j) && l < |TAG| - j
    ensures l < |s| && s[l] == TAG[j + l]
  {
    assert s[..|TAG| - j][l] == TAG[j..][l];
  }

  lemma AtAcross(x: string, y: string, k: nat)
    requires k < |x| < k + |TAG|
    ensures At(x + y, k) <==> Ends(x, |x| - k) && Starts(y, |x| - k)
  {
    var j := |x| - k;
    if k + |TAG| <= |x + y| {
      var t := (x + y)[k..k + |TAG|];
      assert t == x[k..] + y[..|TAG| - j];
      assert t[..j] == x[k..] && t[j..] == y[..|TAG| - j];
      assert TAG == TAG[..j] + TAG[j..];
    }
  }

  lemma TaggedConcat(x: string, y: string)
    ensures Tagged(x + y) <==> Tagged(x) || Tagged(y) || Meets(x, y)
  {
    hide At, Ends, Starts;
    var s := x + y;
    assert s[0..|x|] == x && s[|x|..|s|] == y;
    forall k: nat
      ensures k + |TAG| <= |x| ==> (At(s, k) <==> At(x, k))
      ensures |x| <= k ==> (At(s, k) <==> At(y, k - |x|))
      ensures k < |x| < k + |TAG| ==> (At(s, k) <==> Ends(x, |x| - k) && Starts(y, |x| - k))
    {
      AtPart(s, 0, |x|, k);
      if |x| <= k { AtPart(s, |x|, |s|, k - |x|); }
      if k < |x| < k + |TAG| { AtAcross(x, y, k); }
    }
    if Tagged(y) {
      var k: nat :| At(y, k);
      assert At(s, |x| + k);
    }
    if Meets(x, y) {
      var j: nat :| 0 < j < |TAG| && Ends(x, j) && Starts(y, j);
      EndsFits(x, j);
      assert At(s, |x| - j);
    }
  }

  lemma EndsFits(x: string, j: nat)
    requires j <= |TAG| && Ends(x, j)
    ensures j <= |x|
  {}

  /** A tag beginning at `k` cannot overlap an end of a tag that fills the start of the text. */
  lemma PastTheStart(b: string, j: nat, k: nat)
    requires 0 < j < |TAG| && Starts(b, j) && At(b, k)
    ensures |TAG| - j <= k
  {
    hide At, Starts;
    if k < |TAG| - j {
      var l := NoBorder(|TAG| - j - k);
      StartsChar(b, j, k + l);
      TagChar(b, k, l);
    }
  }

  lemma SameStart(r: string, b: string, j: nat)
    requires j <= |TAG| && |TAG| - j <= |r| && |TAG| - j <= |b| && r[..|TAG| - j] == b[..|TAG| - j]
    ensures Starts(r, j) <==> Starts(b, j)
  {}

  lemma StripStarts(blank: Blank, b: string, j: nat)
    requires Sane(blank) && 0 < j < |TAG|
    ensures Starts(Strip(blank, b), j) <==> Starts(b, j)
  {
    hide Find, At, RunBefore, Starts, Sane, SkipRun;
    var k, m := Find(b), |TAG| - j;
    if k < |b| {
      var i, r := RunBefore(blank, b, k), Strip(blank, b);
      assert r[..i] == b[..i] && r[i] == ' ';
      if m <= i {
        assert r[..m] == r[..i][..m] == b[..i][..m] == b[..m];
        SameStart(r, b, j);
      } else {
        TagCharIsSolid(blank, j + i);
        SpaceIsBlank(blank);
        if Starts(r, j) { StartsChar(r, j, i); }
        if Starts(b, j) {
          PastTheStart(b, j, k);
          StartsChar(b, j, i);
        }
      }
    }
  }

  /** A longer text ends like its end, if that is long enough; else not where a blank or a
      whole tag comes before. */
  lemma EndsLate(x: string, y: string, j: nat)
    requires j <= |TAG| && j <= |y|
    ensures Ends(x + y, j) <==> Ends(y, j)
  {
    assert (x + y)[|x + y| - j..] == y[|y| - j..];
  }

  lemma NoEndAcrossBlank(blank: Blank, x: string, c: char, y: string, j: nat)
    requires Sane(blank) && blank(c) && |y| < j < |TAG|
    ensures !Ends(x + [c] + y, j)
  {
    hide Ends, Sane;
    var s := x + [c] + y;
    assert s[|x|] == c;
    TagCharIsSolid(blank, j - 1 - |y|);
    if Ends(s, j) { EndsChar(s, j, j - 1 - |y|); }
  }

  lemma NoEndAcrossTag(x: string, y: string, j: nat)
    requires |y| < j < |TAG|
    ensures !Ends(x + TAG + y, j)
  {
    hide Ends;
    var s, o := x + TAG + y, j - |y|;
    var l := NoBorder(o);
    assert s[|x| + |TAG| - o + l] == TAG[|TAG| - o + l];
    if Ends(s, j) { EndsChar(s, j, l); }
  }

  lemma {:induction false} StripEnds(blank: Blank, s: string, j: nat)
    requires Sane(blank) && 0 < j < |TAG|
    ensures Ends(Strip(blank, s), j) <==> Ends(s, j)
    decreases |s|
  {
    hide Find, RunBefore, SkipRun, Ends;
    var k := Find(s);
    if k < |s| {
      var i, tail := RunBefore(blank, s, k), s[k + |TAG|..];
      var rest := SkipRun(blank, tail);
      StripEnds(blank, rest, j);
      AfterBlank(blank, s[..i], Strip(blank, rest), j);
      AfterTag(blank, s, k, tail, rest, j);
    }
  }

  lemma AfterBlank(blank: Blank, x: string, y: string, j: nat)
    requires Sane(blank) && 0 < j < |TAG|
    ensures Ends(x + " " + y, j) <==> Ends(y, j)
  {
    hide Ends, Sane;
    if j <= |y| {
      EndsLate(x + " ", y, j);
    } else {
      SpaceIsBlank(blank);
      NoEndAcrossBlank(blank, x, ' ', y, j);
      if Ends(y, j) { EndsFits(y, j); }
    }
  }

  lemma SpaceIsBlank(blank: Blank)
    requires Sane(blank)
    ensures blank(' ')
  {}

  lemma AfterTag(blank: Blank, s: string, k: nat, tail: string, rest: string, j: nat)
    requires Sane(blank) && 0 < j < |TAG| && At(s, k) && tail == s[k + |TAG|..]
    requires |rest| <= |tail| && rest == tail[|tail| - |rest|..]
    requires forall l :: 0 <= l < |tail| - |rest| ==> blank(tail[l])
    ensures Ends(s, j) <==> Ends(rest, j)
  {
    hide Ends, Sane;
    var gap := |tail| - |rest|;
    if j <= |rest| {
      EndsLate(s[..|s| - |rest|], rest, j);
      assert s[..|s| - |rest|] + rest == s;
    } else {
      if Ends(rest, j) { EndsFits(rest, j); }
      if gap > 0 {
        var x, c := s[..k + |TAG| + gap - 1], tail[gap - 1];
        assert x + [c] + rest == s;
        NoEndAcrossBlank(blank, x, c, rest, j);
      } else {
        assert s[..k] + TAG + rest == s;
        NoEndAcrossTag(s[..k], rest, j);
      }
    }
  }

  /** Stripped in two pieces, a text shows a tag exactly when one was cut between them. */
  lemma CutInTwo(blank: Blank, a: string, b: string)
    requires Sane(blank)
    ensures Tagged(Strip(blank, a) + Strip(blank, b)) <==> Meets(a, b)
  {
    hide Strip, Tagged, Ends, Starts, Sane;
    NoTagRemains(blank, a);
    NoTagRemains(blank, b);
    TaggedConcat(Strip(blank, a), Strip(blank, b));
    forall j: nat | 0 < j < |TAG|
      ensures Ends(Strip(blank, a), j) <==> Ends(a, j)
      ensures Starts(Strip(blank, b), j) <==> Starts(b, j)
    {
      StripEnds(blank, a, j);
      StripStarts(blank, b, j);
    }
  }

  // ----- A tag across any number of pieces -----

  /** A tag of the whole text has characters on both sides of a border. */
  ghost predicate Straddles(parts: seq<string>) {
    exists k: nat, n: nat :: Crosses(parts, k, n)
  }

  ghost predicate Crosses(parts: seq<string>, k: nat, n: nat) {
    n <= |parts| && At(Concat(parts), k) && k < |Concat(parts[..n])| < k + |TAG|
  }

  /** Two texts end in the same beginnings of a tag. */
  ghost predicate EndAlike(p: string, r: string) {
    forall j: nat :: 0 < j < |TAG| ==> (Ends(p, j) <==> Ends(r, j))
  }

  lemma EndsConcat(x: string, y: string, j: nat)
    requires |y| < j < |TAG|
    ensures Ends(x + y, j) <==> y == TAG[j - |y|..j] && Ends(x, j - |y|)
  {
    var i := j - |y|;
    if j <= |x + y| {
      var t := (x + y)[|x + y| - j..];
      assert t == x[|x| - i..] + y;
      assert t[..i] == x[|x| - i..] && t[i..] == y;
      assert TAG[..j] == TAG[..i] + TAG[i..j];
    }
  }

  lemma ShortIsKept(blank: Blank, b: string)
    requires |b| < |TAG|
    ensures Strip(blank, b) == b
  {}

  lemma EndsAlikeOn(blank: Blank, p: string, r: string, b: string)
    requires Sane(blank) && EndAlike(p, r)
    ensures EndAlike(p + Strip(blank, b), r + b)
  {
    hide Ends, Strip, Sane;
    var q := Strip(blank, b);
    forall j: nat | 0 < j < |TAG|
      ensures Ends(p + q, j) <==> Ends(r + b, j)
    {
      if j <= |b| {
        EndsLate(r, b, j);
        StripEnds(blank, b, j);
        if j <= |q| {
          EndsLate(p, q, j);
        } else {
          ShrunkHasNoEnd(blank, p, b, j);
          if Ends(b, j) { EndsFits(q, j); }
        }
      } else {
        ShortIsKept(blank, b);
        EndsConcat(p, b, j);
        EndsConcat(r, b, j);
      }
    }
  }

  lemma StripShape(blank: Blank, b: string) returns (a: string, rest: string)
    requires Find(b) < |b|
    ensures Strip(blank, b) == a + " " + rest
  {
    hide SkipRun, Find, RunBefore, At;
    var tail := SkipRun(blank, b[Find(b) + |TAG|..]);
    a, rest := b[..RunBefore(blank, b, Find(b))], Strip(blank, tail);
  }

  lemma Untouched(blank: Blank, b: string)
    requires Find(b) == |b|
    ensures Strip(blank, b) == b
  {
    hide Find;
  }

  lemma ShrunkHasNoEnd(blank: Blank, p: string, b: string, j: nat)
    requires Sane(blank) && 0 < j < |TAG| && |Strip(blank, b)| < j <= |b|
    ensures !Ends(p + Strip(blank, b), j)
  {
    hide Ends, Sane, Strip, Find;
    if Find(b) == |b| { Untouched(blank, b); }
    var a, rest := StripShape(blank, b);
    SpaceIsBlank(blank);
    assert p + (a + " " + rest) == (p + a) + " " + rest;
    NoEndAcrossBlank(blank, p + a, ' ', rest, j);
  }

  lemma StraddlesAfter(parts: seq<string>, b: string)
    ensures Straddles(parts + [b]) <==> Straddles(parts) || Meets(Concat(parts), b)
  {
    hide At, Ends, Starts, Concat;
    var more, r := parts + [b], Concat(parts);
    ConcatAfter(parts, b);
    assert more[..|parts|] == parts && more[..|more|] == more;
    assert forall n :: 0 <= n <= |parts| ==> more[..n] == parts[..n];
    assert r == (r + b)[0..|r|];
    forall k: nat
      ensures k + |TAG| <= |r| ==> (At(r + b, k) <==> At(r, k))
      ensures k < |r| < k + |TAG| ==> (At(r + b, k) <==> Ends(r, |r| - k) && Starts(b, |r| - k))
    {
      AtPart(r + b, 0, |r|, k);
      if k < |r| < k + |TAG| { AtAcross(r, b, k); }
    }
    if Straddles(more) {
      var k: nat, n: nat :| Crosses(more, k, n);
      if n == |more| { assert false; }
      if k + |TAG| <= |r| { assert Crosses(parts, k, n); } else { BorderWithin(parts, n); }
    }
    if Straddles(parts) {
      var k: nat, n: nat :| Crosses(parts, k, n);
      assert Crosses(more, k, n);
    }
    if Meets(r, b) {
      var j: nat :| 0 < j < |TAG| && Ends(r, j) && Starts(b, j);
      EndsFits(r, j);
      assert Crosses(more, |r| - j, |parts|);
    }
  }

  lemma {:induction false} BorderWithin(parts: seq<string>, n: nat)
    requires n <= |parts|
    ensures |Concat(parts[..n])| <= |Concat(parts)|
    decreases |parts|
  {
    if n < |parts| {
      var init := parts[..|parts| - 1];
      assert init[..n] == parts[..n];
      BorderWithin(init, n);
    } else {
      assert parts[..n] == parts;
    }
  }

  /** However a text is cut, the stripped pieces together show a tag exactly when a tag of the
      text lies across a border. */
  lemma {:induction false} ShownExactlyWhenCut(blank: Blank, parts: seq<string>)
    requires Sane(blank)
    ensures Tagged(Concat(StripAll(blank, parts))) <==> Straddles(parts)
    ensures EndAlike(Concat(StripAll(blank, parts)), Concat(parts))
    decreases |parts|
  {
    if parts == [] {
      assert StripAll(blank, parts) == [] && Concat([]) == "";
    } else {
      hide Strip, Tagged, Straddles, Ends, Starts, Sane, Concat;
      var init, b := parts[..|parts| - 1], parts[|parts| - 1];
      assert parts == init + [b];
      ShownExactlyWhenCut(blank, init);
      var p, q, r := Concat(StripAll(blank, init)), Strip(blank, b), Concat(init);
      assert StripAll(blank, parts) == StripAll(blank, init) + [q];
      ConcatAfter(StripAll(blank, init), q);
      ConcatAfter(init, b);
      NoTagRemains(blank, b);
      TaggedConcat(p, q);
      StraddlesAfter(init, b);
      EndsAlikeOn(blank, p, r, b);
      forall j: nat | 0 < j < |TAG|
        ensures Starts(q, j) <==> Starts(b, j)
      {
        StripStarts(blank, b, j);
      }
    }
  }
}
