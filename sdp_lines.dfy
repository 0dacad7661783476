/**
  removeCodec seen line by line.

  A session description is a sequence of lines, each ended by CRLF (section 5
  of RFC 8866). On such a text, each regular expression of removeCodec matches
  whole lines, provided the lines are "clean": no line holds a terminator
  character, and none of the attribute names the source searches for
  ("a=rtpmap:", "a=rtcp-fb:", "a=fmtp:", "m=video") occurs inside a line other
  than at its start. Under that condition `PassOnLines` proves that one pass of
  the text-level model is the line-level pass `LinePass`: delete the codec's
  rtpmap line, every line beginning "a=rtcp-fb:<pt>" or "a=fmtp:<pt>", the
  first "a=fmtp:<rtx> apt=<pt>" line and every line beginning
  "a=rtpmap:<rtx>", rewrite the first m=video line, and change nothing else.
*/
module SdpLines {
  import opened Options
  import opened Sdp

  /** The text of a sequence of lines, each followed by CRLF. */
  function Join(ls: seq<string>): string {
    if ls == [] then [] else ls[0] + CRLF + Join(ls[1..])
  }

  /** The attribute names that removeCodec's regular expressions begin with. */
  const Keys: seq<string> := ["a=rtpmap:", "a=rtcp-fb:", "a=fmtp:", "m=video"]

  predicate NoTerminator(s: string) {
    forall i :: 0 <= i < |s| ==> !IsTerminator(s[i])
  }

  predicate CleanLine(l: string) {
    && NoTerminator(l)
    && forall k, key :: 0 < k < |l| && key in Keys ==> !StartsWith(l[k..], key)
  }

  predicate Clean(ls: seq<string>) {
    forall l <- ls :: CleanLine(l)
  }

  predicate AllDigits(s: string) {
    forall i :: 0 <= i < |s| ==> IsDigit(s[i])
  }

  /** The patterns a pass uses on a clean document. */
  predicate Supported(pat: Pattern) {
    match pat
    case RtpmapOf(codec) => NoTerminator(codec)
    case AptOf(pt) => NoTerminator(pt)
    case LineFrom(prefix) => NoTerminator(prefix) && exists key :: key in Keys && StartsWith(prefix, key)
  }

  /** When the whole line `l` (with its CRLF) matches `pat`: group 2 of the match. */
  function LineHead(pat: Pattern, l: string): (r: Option<string>)
    ensures r.Some? && !pat.LineFrom? ==> AllDigits(r.value)
  {
    match pat
    case RtpmapOf(codec) => LineCaptured(l, "a=rtpmap:", " " + codec + "/90000")
    case AptOf(pt) => LineCaptured(l, "a=fmtp:", " apt=" + pt)
    case LineFrom(prefix) => if StartsWith(l, prefix) then Some([]) else None
  }

  function LineCaptured(l: string, head: string, mid: string): (r: Option<string>)
    ensures r.Some? ==> AllDigits(r.value)
  {
    if StartsWith(l, head) then
      var e := DigitsEnd(l, |head|);
      if l[e..] == mid then Some(l[|head|..e]) else None
    else None
  }

  /** A line found by a pattern: its index and group 2. */
  datatype LineFound = LineFound(index: nat, group: string)

  /** The first line that `pat` matches entirely. */
  function FirstLine(pat: Pattern, ls: seq<string>): (r: Option<LineFound>)
    ensures r.Some? ==> r.value.index < |ls| && LineHead(pat, ls[r.value.index]) == Some(r.value.group)
  {
    if ls == [] then None
    else match LineHead(pat, ls[0])
      case Some(g) => Some(LineFound(0, g))
      case None =>
        match FirstLine(pat, ls[1..])
        case None => None
        case Some(f) => Some(LineFound(f.index + 1, f.group))
  }

  /** No line before the one FirstLine finds matches, and none at all when it finds none. */
  lemma {:induction false} FirstLineLeftmost(pat: Pattern, ls: seq<string>, j: nat)
    requires j < |ls|
    requires FirstLine(pat, ls).None? || j < FirstLine(pat, ls).value.index
    ensures LineHead(pat, ls[j]).None?
  {
    if j > 0 {
      FirstLineLeftmost(pat, ls[1..], j - 1);
    }
  }

  /** The lines that do not begin with `prefix`, in their order (a global `<prefix>.*\r\n` deletion). */
  function Drop(ls: seq<string>, prefix: string): (r: seq<string>)
    ensures forall l :: l in r <==> l in ls && !StartsWith(l, prefix)
  {
    if ls == [] then []
    else if StartsWith(ls[0], prefix) then Drop(ls[1..], prefix)
    else [ls[0]] + Drop(ls[1..], prefix)
  }

  function RemoveLine(ls: seq<string>, i: nat): (r: seq<string>)
    requires i < |ls|
    ensures |r| == |ls| - 1
    ensures forall l <- r :: l in ls
  {
    ls[..i] + ls[i + 1..]
  }

  /** The m=video step on lines: the first line beginning "m=video" is rewritten. */
  function RewriteVideoLines(ls: seq<string>, pt: string, rtx: string): seq<string> {
    match FirstLine(LineFrom("m=video"), ls)
    case None => ls
    case Some(v) => ls[v.index := RewriteVideoLine(ls[v.index], pt, rtx)]
  }

  /** DropPayload on lines: the lines beginning "a=rtcp-fb:<pt>" or "a=fmtp:<pt>" go. */
  function DropPayloadLines(ls: seq<string>, pt: string): seq<string> {
    Drop(Drop(ls, "a=rtcp-fb:" + pt), "a=fmtp:" + pt)
  }

  /** DropRtx on lines: the first "a=fmtp:<rtx> apt=<pt>" line goes, then the lines beginning "a=rtpmap:<rtx>". */
  function DropRtxLines(ls: seq<string>, pt: string): (seq<string>, string) {
    match FirstLine(AptOf(pt), ls)
    case None => (ls, [])
    case Some(a) => (Drop(RemoveLine(ls, a.index), "a=rtpmap:" + a.group), a.group)
  }

  /** One pass of removeCodec on lines. */
  function LinePass(ls: seq<string>, codec: string): Option<seq<string>> {
    match FirstLine(RtpmapOf(codec), ls)
    case None => None
    case Some(m) =>
      var pt := m.group;
      var (ls', rtx) := DropRtxLines(DropPayloadLines(RemoveLine(ls, m.index), pt), pt);
      Some(RewriteVideoLines(ls', pt, rtx))
  }

  // ---------------------------------------------------------------------
  // Texts and lines

  lemma {:induction false} JoinAppend(a: seq<string>, b: seq<string>)
    ensures Join(a + b) == Join(a) + Join(b)
  {
    if a != [] {
      JoinAppend(a[1..], b);
      assert (a + b)[1..] == a[1..] + b;
    } else {
      assert a + b == b;
    }
  }

  lemma JoinCons(l: string, ls: seq<string>)
    ensures Join([l] + ls) == l + CRLF + Join(ls)
  {
    assert ([l] + ls)[1..] == ls;
  }

  /** Where line `i` of `ls` starts in its text. */
  function Offset(ls: seq<string>, i: nat): nat
    requires i <= |ls|
  {
    if i == 0 then 0 else |ls[0]| + 2 + Offset(ls[1..], i - 1)
  }

  /** The text of `ls` is the text of the lines before `i`, which ends where line `i` starts, then line `i` with its CRLF, then the rest. */
  lemma {:induction false} JoinSplit(ls: seq<string>, i: nat)
    requires i < |ls|
    ensures Join(ls) == Join(ls[..i]) + (ls[i] + CRLF) + Join(ls[i + 1..])
    ensures |Join(ls[..i])| == Offset(ls, i)
  {
    if i == 0 {
      assert ls[..0] == [];
    } else {
      var rest := ls[1..];
      JoinSplit(rest, i - 1);
      assert ls[..i] == [ls[0]] + rest[..i - 1];
      JoinCons(ls[0], rest[..i - 1]);
      assert rest[i - 1] == ls[i] && rest[i..] == ls[i + 1..];
    }
  }

  // ---------------------------------------------------------------------
  // One line

  /** A terminator-free text that begins `l + CRLF + rest` lies within the terminator-free line `l`. */
  lemma PrefixWithinLine(l: string, rest: string, p: string)
    requires NoTerminator(l) && NoTerminator(p)
    requires StartsWith(l + CRLF + rest, p)
    ensures StartsWith(l, p)
  {
    var t := l + CRLF + rest;
    assert t[|l|] == '\r';
    assert forall j :: 0 <= j < |p| ==> p[j] == t[j];
    assert |p| <= |l|;
    assert t[..|p|] == l[..|p|];
  }

  lemma DigitsEndInLine(l: string, rest: string, i: nat)
    requires i <= |l|
    ensures DigitsEnd(l + CRLF + rest, i) == DigitsEnd(l, i)
    decreases |l| - i
  {
    if i < |l| {
      assert (l + CRLF + rest)[i] == l[i];
      if IsDigit(l[i]) {
        DigitsEndInLine(l, rest, i + 1);
      }
    } else {
      assert (l + CRLF + rest)[i] == '\r';
    }
  }

  lemma RunEndInLine(l: string, rest: string, i: nat)
    requires NoTerminator(l) && i <= |l|
    ensures RunEnd(l + CRLF + rest, i) == |l|
  {
    var t := l + CRLF + rest;
    var e := RunEnd(t, i);
    assert t[|l|] == '\r';
    assert forall j :: 0 <= j < |l| ==> t[j] == l[j];
  }

  /** `<head>(\d*)<mid>\r\n` matches at the start of `l + CRLF + rest` exactly when it matches the whole line. */
  lemma CapturedOnLine(l: string, rest: string, head: string, mid: string)
    requires CleanLine(l) && NoTerminator(head) && NoTerminator(mid)
    ensures Captured(l + CRLF + rest, head, mid + CRLF) ==
      match LineCaptured(l, head, mid)
      case None => None
      case Some(g) => Some(Head(|l| + 2, g))
  {
    var t := l + CRLF + rest;
    if StartsWith(t, head) {
      PrefixWithinLine(l, rest, head);
    }
    if StartsWith(l, head) {
      assert t[..|head|] == l[..|head|];
      var e := DigitsEnd(l, |head|);
      DigitsEndInLine(l, rest, |head|);
      assert t[e..] == l[e..] + CRLF + rest;
      assert t[|head|..e] == l[|head|..e];
      if StartsWith(t[e..], mid + CRLF) {
        var u := t[e..];
        assert StartsWith(u, mid);
        PrefixWithinLine(l[e..], rest, mid);
        assert u[|mid|] == (mid + CRLF)[|mid|] == '\r';
        assert forall j :: 0 <= j < |l| - e ==> u[j] == l[e + j];
        assert l[e..] == l[e..][..|mid|];
      }
      if l[e..] == mid {
        assert t[e..][..|mid + CRLF|] == mid + CRLF;
      }
    }
  }

  /** On a clean line, a supported pattern matches at the start of the line's text exactly when it matches the whole line. */
  lemma HeadOnLine(pat: Pattern, l: string, rest: string)
    requires Supported(pat) && CleanLine(l)
    ensures HeadMatch(pat, l + CRLF + rest) ==
      match LineHead(pat, l)
      case None => None
      case Some(g) => Some(Head(|l| + 2, g))
  {
    var t := l + CRLF + rest;
    match pat
    case RtpmapOf(codec) =>
      CapturedOnLine(l, rest, "a=rtpmap:", " " + codec + "/90000");
      assert " " + codec + "/90000" + CRLF == (" " + codec + "/90000") + CRLF;
    case AptOf(pt) =>
      CapturedOnLine(l, rest, "a=fmtp:", " apt=" + pt);
    case LineFrom(prefix) =>
      if StartsWith(t, prefix) {
        PrefixWithinLine(l, rest, prefix);
      }
      if StartsWith(l, prefix) {
        assert t[..|prefix|] == l[..|prefix|];
        RunEndInLine(l, rest, |prefix|);
        assert t[|l|..][..2] == CRLF;
      }
  }

  /** Every match of a supported pattern begins with one of the attribute names. */
  lemma HeadBeginsWithKey(pat: Pattern, t: string) returns (key: string)
    requires Supported(pat) && HeadMatch(pat, t).Some?
    ensures key in Keys && StartsWith(t, key)
  {
    match pat
    case RtpmapOf(_) =>
      key := Keys[0];
    case AptOf(_) =>
      key := Keys[2];
    case LineFrom(prefix) =>
      key :| key in Keys && StartsWith(prefix, key);
      assert t[..|key|] == t[..|prefix|][..|key|];
  }

  /** Inside a clean line, and on its CRLF, no attribute name begins. */
  lemma NoKeyInsideLine(l: string, rest: string, k: nat, key: string)
    requires CleanLine(l) && key in Keys
    requires 0 < k < |l| + 2
    ensures !StartsWith((l + CRLF + rest)[k..], key)
  {
    var t := l + CRLF + rest;
    if StartsWith(t[k..], key) {
      assert key[0] == 'a' || key[0] == 'm';
      assert key[0] == t[k..][..|key|][0] == t[k];
      assert t[|l|] == '\r' && t[|l| + 1] == '\n';
      if k < |l| {
        assert t[k..] == l[k..] + CRLF + rest;
        PrefixWithinLine(l[k..], rest, key);
        assert false;
      }
    }
  }

  /** Inside a clean line, and on its CRLF, no supported pattern matches. */
  lemma NoHeadInsideLine(pat: Pattern, l: string, rest: string, k: nat)
    requires Supported(pat) && CleanLine(l)
    requires 0 < k < |l| + 2
    ensures HeadMatch(pat, (l + CRLF + rest)[k..]).None?
  {
    var u := (l + CRLF + rest)[k..];
    if HeadMatch(pat, u).Some? {
      var key := HeadBeginsWithKey(pat, u);
      NoKeyInsideLine(l, rest, k, key);
    }
  }

  // ---------------------------------------------------------------------
  // Searching a text made of lines

  /** What a pattern that matches whole lines matches at the start of line `l`. */
  function LineMatch(pat: Pattern, l: string): (r: Option<Head>)
    ensures r.Some? <==> LineHead(pat, l).Some?
    ensures r.Some? ==> r.value.len == |l| + 2
  {
    match LineHead(pat, l)
    case None => None
    case Some(g) => Some(Head(|l| + 2, g))
  }

  /**
    At the start of `l + CRLF + rest`, `m` matches the whole line when `pat`
    does, and inside the line or on its CRLF it matches nothing.
  */
  ghost predicate FollowsLine(m: Matcher, pat: Pattern, l: string, rest: string) {
    var t := l + CRLF + rest;
    && m(t) == LineMatch(pat, l)
    && forall j :: 0 < j < |l| + 2 ==> m(t[j..]).None?
  }

  /** `m` follows every line of the text of `ls`. */
  ghost predicate FollowsLines(m: Matcher, pat: Pattern, ls: seq<string>) {
    ls == [] || (FollowsLine(m, pat, ls[0], Join(ls[1..])) && FollowsLines(m, pat, ls[1..]))
  }

  /** When nothing matches from `i` up to `k`, a search from `i` is a search from `k`. */
  lemma {:induction false} SearchSkip(m: Matcher, t: string, i: nat, k: nat)
    requires Sound(m) && i <= k <= |t|
    requires forall j :: i <= j < k ==> m(t[j..]).None?
    ensures Search(m, t, i) == Search(m, t, k)
    decreases k - i
  {
    if i < k {
      SearchSkip(m, t, i + 1, k);
    }
  }

  /** A match moved `k` characters to the right. */
  function Shift(r: Option<Found>, k: nat): Option<Found> {
    match r
    case None => None
    case Some(f) => Some(Found(k + f.start, k + f.end, f.group))
  }

  /** Slicing the text after `k` is slicing `t`, moved by `k`. */
  lemma SliceOfSuffix(t: string, k: nat, a: nat, b: nat)
    requires k + a <= k + b <= |t|
    ensures t[k..][a..] == t[k + a..]
    ensures t[k..][a..b] == t[k + a..k + b]
  {
  }

  /** A search from `k + i` in `t` is a search from `i` in the text after `k`, moved by `k`. */
  lemma {:induction false} SearchShift(m: Matcher, t: string, k: nat, i: nat)
    requires Sound(m) && k + i <= |t|
    ensures Search(m, t, k + i) == Shift(Search(m, t[k..], i), k)
    decreases |t| - k - i
  {
    SliceOfSuffix(t, k, i, i);
    if m(t[k + i..]).None? && k + i < |t| {
      SearchShift(m, t, k, i + 1);
    }
  }

  /** The first line of `ls` that `pat` matches, as a match in the text of `ls`. */
  function LineSearch(pat: Pattern, ls: seq<string>): Option<Found> {
    if ls == [] then None
    else match LineHead(pat, ls[0])
      case Some(g) => Some(Found(0, |ls[0]| + 2, g))
      case None => Shift(LineSearch(pat, ls[1..]), |ls[0]| + 2)
  }

  /** LineSearch finds the line FirstLine finds, from its offset to the end of its CRLF. */
  lemma {:induction false} LineSearchFirst(pat: Pattern, ls: seq<string>)
    ensures LineSearch(pat, ls).None? <==> FirstLine(pat, ls).None?
    ensures FirstLine(pat, ls).Some? ==>
      var lf := FirstLine(pat, ls).value;
      var p := Offset(ls, lf.index);
      LineSearch(pat, ls) == Some(Found(p, p + |ls[lf.index]| + 2, lf.group))
  {
    if ls != [] && LineHead(pat, ls[0]).None? {
      LineSearchFirst(pat, ls[1..]);
    }
  }

  /** A matcher that follows the lines finds the first matching line, whole. */
  lemma {:induction false} SearchFollows(m: Matcher, pat: Pattern, ls: seq<string>)
    requires Sound(m) && FollowsLines(m, pat, ls)
    ensures Search(m, Join(ls), 0) == LineSearch(pat, ls)
  {
    var t := Join(ls);
    assert t[0..] == t;
    if ls != [] {
      var l, rest := ls[0], ls[1..];
      if LineHead(pat, l).None? {
        SearchSkip(m, t, 0, |l| + 2);
        SearchShift(m, t, |l| + 2, 0);
        assert t[|l| + 2..] == Join(rest);
        SearchFollows(m, pat, rest);
      }
    }
  }

  /** When a match starts the text, a global deletion deletes it and goes on with the rest. */
  lemma RemoveMatchAtStart(m: Matcher, t: string)
    requires Sound(m) && m(t).Some?
    ensures RemoveAll(m, t) == RemoveAll(m, t[m(t).value.len..])
  {
    assert t[0..] == t;
  }

  /** A global deletion keeps the text before the first match, `a`, and goes on with the text after it, `b`. */
  lemma RemoveAllFound(m: Matcher, t: string, f: Found, a: string, b: string)
    requires Sound(m) && Search(m, t, 0) == Some(f)
    requires a == t[..f.start] && b == t[f.end..]
    ensures RemoveAll(m, t) == a + RemoveAll(m, b)
  {
  }

  /** When no match starts inside `p`, a global deletion over `p + u` keeps `p` and goes on with `u`. */
  lemma RemoveKeepsPrefix(m: Matcher, p: string, u: string)
    requires Sound(m)
    requires forall j :: 0 <= j < |p| ==> m((p + u)[j..]).None?
    ensures RemoveAll(m, p + u) == p + RemoveAll(m, u)
  {
    var t := p + u;
    SearchSkip(m, t, 0, |p|);
    SearchShift(m, t, |p|, 0);
    assert t[|p|..] == u;
    match Search(m, u, 0)
    case None =>
    case Some(g) =>
      KeepLine(t, p, u, g.start, g.end);
      RemoveAllFound(m, t, Found(|p| + g.start, |p| + g.end, g.group), p + u[..g.start], u[g.end..]);
      RemoveAllFound(m, u, g, u[..g.start], u[g.end..]);
      var x := RemoveAll(m, u[g.end..]);
      assert (p + u[..g.start]) + x == p + (u[..g.start] + x);
  }

  /** Cutting `p + u` at a position inside `u`. */
  lemma KeepLine(t: string, p: string, u: string, start: nat, end: nat)
    requires t == p + u && start <= end <= |u|
    ensures t[..|p| + start] == p + u[..start]
    ensures t[|p| + end..] == u[end..]
  {
  }

  /** A global deletion over `l + CRLF + rest`, by a matcher that follows line `l`, deletes `l` when it begins with `prefix` and keeps it otherwise. */
  lemma RemoveLineStep(m: Matcher, prefix: string, l: string, rest: string)
    requires Sound(m) && FollowsLine(m, LineFrom(prefix), l, rest)
    ensures RemoveAll(m, l + CRLF + rest) ==
      (if StartsWith(l, prefix) then [] else l + CRLF) + RemoveAll(m, rest)
  {
    var t := l + CRLF + rest;
    if StartsWith(l, prefix) {
      RemoveMatchAtStart(m, t);
      assert t[|l| + 2..] == rest;
    } else {
      assert t == (l + CRLF) + rest;
      RemoveKeepsPrefix(m, l + CRLF, rest);
    }
  }

  /** A global deletion by a matcher that follows the lines of `<prefix>.*\r\n` deletes the lines beginning with `prefix`. */
  lemma {:induction false} RemoveFollows(m: Matcher, prefix: string, ls: seq<string>)
    requires Sound(m) && FollowsLines(m, LineFrom(prefix), ls)
    ensures RemoveAll(m, Join(ls)) == Join(Drop(ls, prefix))
  {
    if ls == [] {
      assert Join(ls)[0..] == [];
    } else {
      RemoveLineStep(m, prefix, ls[0], Join(ls[1..]));
      RemoveFollows(m, prefix, ls[1..]);
      if !StartsWith(ls[0], prefix) {
        JoinCons(ls[0], Drop(ls[1..], prefix));
      }
    }
  }

  lemma MatchesFollowLine(pat: Pattern, l: string, rest: string)
    requires Supported(pat) && CleanLine(l)
    ensures FollowsLine(Matches(pat), pat, l, rest)
  {
    HeadOnLine(pat, l, rest);
    forall j | 0 < j < |l| + 2 ensures HeadMatch(pat, (l + CRLF + rest)[j..]).None? {
      NoHeadInsideLine(pat, l, rest, j);
    }
  }

  /** On a clean document, a supported pattern follows the lines. */
  lemma {:induction false} MatchesFollow(pat: Pattern, ls: seq<string>)
    requires Supported(pat) && Clean(ls)
    ensures FollowsLines(Matches(pat), pat, ls)
  {
    if ls != [] {
      assert ls[0] in ls;
      MatchesFollowLine(pat, ls[0], Join(ls[1..]));
      MatchesFollow(pat, ls[1..]);
    }
  }

  /** On a clean document, the leftmost match of a supported pattern is its first matching line. */
  lemma FirstLineMatches(pat: Pattern, ls: seq<string>)
    requires Supported(pat) && Clean(ls)
    ensures Search(Matches(pat), Join(ls), 0).None? <==> FirstLine(pat, ls).None?
    ensures FirstLine(pat, ls).Some? ==>
      var lf := FirstLine(pat, ls).value;
      var p := Offset(ls, lf.index);
      Search(Matches(pat), Join(ls), 0) == Some(Found(p, p + |ls[lf.index]| + 2, lf.group))
  {
    MatchesFollow(pat, ls);
    SearchFollows(Matches(pat), pat, ls);
    LineSearchFirst(pat, ls);
  }

  /** On a clean document, a global `<prefix>.*\r\n` deletion deletes exactly the lines beginning with `prefix`. */
  lemma RemoveAllOnLines(prefix: string, ls: seq<string>)
    requires Supported(LineFrom(prefix)) && Clean(ls)
    ensures RemoveAll(Matches(LineFrom(prefix)), Join(ls)) == Join(Drop(ls, prefix))
  {
    MatchesFollow(LineFrom(prefix), ls);
    RemoveFollows(Matches(LineFrom(prefix)), prefix, ls);
  }

  /** Replacing the middle piece of `a + b + c`. */
  lemma SpliceMiddle(a: string, b: string, c: string, g: string, repl: string)
    ensures (a + b + c)[|a|..|a| + |b|] == b
    ensures Splice(a + b + c, Found(|a|, |a| + |b|, g), repl) == a + repl + c
  {
    var t := a + b + c;
    assert t[..|a|] == a;
    assert t[|a| + |b|..] == c;
  }

  /** Replacing the first match of a supported pattern on a clean document replaces its first matching line, line `i`. */
  lemma SpliceOnLines(pat: Pattern, ls: seq<string>, i: nat, repl: string)
    requires Supported(pat) && Clean(ls)
    requires FirstLine(pat, ls).Some? && FirstLine(pat, ls).value.index == i
    ensures Search(Matches(pat), Join(ls), 0).Some?
    ensures Join(ls)[Search(Matches(pat), Join(ls), 0).value.start..Search(Matches(pat), Join(ls), 0).value.end] == ls[i] + CRLF
    ensures Splice(Join(ls), Search(Matches(pat), Join(ls), 0).value, repl) == Join(ls[..i]) + repl + Join(ls[i + 1..])
  {
    FirstLineMatches(pat, ls);
    JoinSplit(ls, i);
    var a, b, c := Join(ls[..i]), ls[i] + CRLF, Join(ls[i + 1..]);
    SpliceMiddle(a, b, c, FirstLine(pat, ls).value.group, repl);
  }

  lemma CleanSub(ls: seq<string>, sub: seq<string>)
    requires Clean(ls) && forall l <- sub :: l in ls
    ensures Clean(sub)
  {
  }

  /** Removing the first match, on a clean document, removes the first matching line. */
  lemma RemoveFirstOnLines(pat: Pattern, ls: seq<string>)
    requires Supported(pat) && Clean(ls) && FirstLine(pat, ls).Some?
    ensures Search(Matches(pat), Join(ls), 0).Some?
    ensures Splice(Join(ls), Search(Matches(pat), Join(ls), 0).value, []) ==
      Join(RemoveLine(ls, FirstLine(pat, ls).value.index))
  {
    var i := FirstLine(pat, ls).value.index;
    SpliceOnLines(pat, ls, i, []);
    JoinAppend(ls[..i], ls[i + 1..]);
    assert Join(ls[..i]) + [] == Join(ls[..i]);
  }

  /** The text of `ls` with line `i` replaced by `x`. */
  lemma JoinUpdate(ls: seq<string>, i: nat, x: string)
    requires i < |ls|
    ensures Join(ls[i := x]) == Join(ls[..i]) + (x + CRLF) + Join(ls[i + 1..])
  {
    var ls' := ls[i := x];
    assert ls'[..i] == ls[..i] && ls'[i + 1..] == ls[i + 1..];
    JoinSplit(ls', i);
  }

  /** A slice of `t` holding `line` and its CRLF holds `line` up to its last two characters. */
  lemma LineOfSlice(t: string, start: nat, end: nat, line: string)
    requires start <= end <= |t| && t[start..end] == line + CRLF
    ensures start + 2 <= end && t[start..end - 2] == line
  {
    assert t[start..end - 2] == (line + CRLF)[..|line|];
  }

  /** When the m=video search finds `line` with its CRLF, the m=video step rewrites that line. */
  lemma RewriteVideoAt(t: string, f: Found, line: string, pt: string, rtx: string)
    requires Search(Matches(LineFrom("m=video")), t, 0) == Some(f)
    requires t[f.start..f.end] == line + CRLF
    ensures RewriteVideo(t, pt, rtx) == Splice(t, f, RewriteVideoLine(line, pt, rtx) + CRLF)
  {
    LineOfSlice(t, f.start, f.end, line);
    RewriteVideoFound(t, f, pt, rtx);
  }

  /** When the m=video search finds line `i` of `ls`, whole, the m=video step rewrites that line. */
  lemma RewriteVideoLineFound(ls: seq<string>, i: nat, f: Found, pt: string, rtx: string)
    requires i < |ls|
    requires Search(Matches(LineFrom("m=video")), Join(ls), 0) == Some(f)
    requires Join(ls)[f.start..f.end] == ls[i] + CRLF
    requires forall repl :: Splice(Join(ls), f, repl) == Join(ls[..i]) + repl + Join(ls[i + 1..])
    ensures RewriteVideo(Join(ls), pt, rtx) == Join(ls[i := RewriteVideoLine(ls[i], pt, rtx)])
  {
    var x := RewriteVideoLine(ls[i], pt, rtx);
    RewriteVideoAt(Join(ls), f, ls[i], pt, rtx);
    assert Splice(Join(ls), f, x + CRLF) == Join(ls[..i]) + (x + CRLF) + Join(ls[i + 1..]);
    JoinUpdate(ls, i, x);
  }

  /** On a clean document, the m=video step rewrites the first line beginning "m=video". */
  lemma RewriteVideoOnLines(ls: seq<string>, pt: string, rtx: string)
    requires Clean(ls)
    ensures RewriteVideo(Join(ls), pt, rtx) == Join(RewriteVideoLines(ls, pt, rtx))
  {
    var pat := LineFrom("m=video");
    assert StartsWith("m=video", Keys[3]);
    FirstLineMatches(pat, ls);
    match FirstLine(pat, ls)
    case None =>
    case Some(v) =>
      var i := v.index;
      forall repl | true ensures Splice(Join(ls), Search(Matches(pat), Join(ls), 0).value, repl) == Join(ls[..i]) + repl + Join(ls[i + 1..]) {
        SpliceOnLines(pat, ls, i, repl);
      }
      SpliceOnLines(pat, ls, i, []);
      RewriteVideoLineFound(ls, i, Search(Matches(pat), Join(ls), 0).value, pt, rtx);
  }

  lemma DigitsNoTerminator(s: string)
    requires AllDigits(s)
    ensures NoTerminator(s)
  {
  }

  /** The deletion patterns of a pass, for a payload type made of digits. */
  lemma LineFromSupported(key: string, pt: string)
    requires key in Keys && AllDigits(pt)
    ensures Supported(LineFrom(key + pt))
  {
    assert StartsWith(key + pt, key);
    assert key == Keys[0] || key == Keys[1] || key == Keys[2] || key == Keys[3];
  }

  lemma DropPayloadOnLines(ls: seq<string>, pt: string)
    requires Clean(ls) && AllDigits(pt)
    ensures DropPayload(Join(ls), pt) == Join(DropPayloadLines(ls, pt))
    ensures Clean(DropPayloadLines(ls, pt))
  {
    LineFromSupported("a=rtcp-fb:", pt);
    RemoveAllOnLines("a=rtcp-fb:" + pt, ls);
    var l2 := Drop(ls, "a=rtcp-fb:" + pt);
    CleanSub(ls, l2);
    LineFromSupported("a=fmtp:", pt);
    RemoveAllOnLines("a=fmtp:" + pt, l2);
    CleanSub(l2, Drop(l2, "a=fmtp:" + pt));
  }

  lemma DropRtxOnLines(ls: seq<string>, pt: string)
    requires Clean(ls) && AllDigits(pt)
    ensures DropRtx(Join(ls), pt).0 == Join(DropRtxLines(ls, pt).0)
    ensures DropRtx(Join(ls), pt).1 == DropRtxLines(ls, pt).1
    ensures Clean(DropRtxLines(ls, pt).0)
  {
    DigitsNoTerminator(pt);
    FirstLineMatches(AptOf(pt), ls);
    match FirstLine(AptOf(pt), ls)
    case None =>
    case Some(a) =>
      var rtx := a.group;
      RemoveFirstOnLines(AptOf(pt), ls);
      var l4 := RemoveLine(ls, a.index);
      CleanSub(ls, l4);
      LineFromSupported("a=rtpmap:", rtx);
      RemoveAllOnLines("a=rtpmap:" + rtx, l4);
      CleanSub(l4, Drop(l4, "a=rtpmap:" + rtx));
  }

  /**
    On a clean document (and a codec name without terminator characters), one
    pass of the text-level model is the line-level pass.
  */
  lemma PassOnLines(ls: seq<string>, codec: string)
    requires Clean(ls) && NoTerminator(codec)
    ensures Pass(Join(ls), codec) ==
      match LinePass(ls, codec)
      case None => None
      case Some(ls') => Some(Join(ls'))
  {
    FirstLineMatches(RtpmapOf(codec), ls);
    match FirstLine(RtpmapOf(codec), ls)
    case None =>
    case Some(m) =>
      var pt := m.group;
      RemoveFirstOnLines(RtpmapOf(codec), ls);
      var l1 := RemoveLine(ls, m.index);
      CleanSub(ls, l1);
      DropPayloadOnLines(l1, pt);
      var l3 := DropPayloadLines(l1, pt);
      DropRtxOnLines(l3, pt);
      RewriteVideoOnLines(DropRtxLines(l3, pt).0, pt, DropRtxLines(l3, pt).1);
  }
}
