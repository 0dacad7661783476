/**
  removeCodec (demo.js:302-350) on the raw session-description text.

  The source edits the SDP with regular expressions, so the model works on the
  text itself: each regular expression becomes a `Pattern`, `HeadMatch` says
  what the expression matches when the match is tried at the start of a text,
  `Search` is the unanchored, non-global search of `String.prototype.match`
  and `replace`, and `RemoveAll` is `replace(/…/g, "")`. Matching at a
  position only looks at the text from that position on (none of the
  expressions has an anchor or a look-behind), which is why everything is
  stated on suffixes.

  The codec name is spliced into the expression as a literal: the model treats
  it as the literal text it is for "VP8" and "VP9".
*/
module Sdp {
  import opened Options

  const CRLF: string := "\r\n"

  predicate IsDigit(c: char) { '0' <= c <= '9' }

  /** The characters JavaScript's `.` does not match. */
  predicate IsTerminator(c: char) {
    c == '\n' || c == '\r' || c == '\U{2028}' || c == '\U{2029}'
  }

  predicate StartsWith(s: string, p: string) {
    |p| <= |s| && s[..|p|] == p
  }

  /** End of the longest run of digits starting at `i` (a greedy `\d*`). */
  function DigitsEnd(s: string, i: nat): (e: nat)
    requires i <= |s|
    ensures i <= e <= |s|
    ensures forall k :: i <= k < e ==> IsDigit(s[k])
    ensures e == |s| || !IsDigit(s[e])
    decreases |s| - i
  {
    if i == |s| || !IsDigit(s[i]) then i else DigitsEnd(s, i + 1)
  }

  /** End of the longest run of non-terminators starting at `i` (a greedy `.*`). */
  function RunEnd(s: string, i: nat): (e: nat)
    requires i <= |s|
    ensures i <= e <= |s|
    ensures forall k :: i <= k < e ==> !IsTerminator(s[k])
    ensures e == |s| || IsTerminator(s[e])
    decreases |s| - i
  {
    if i == |s| || IsTerminator(s[i]) then i else RunEnd(s, i + 1)
  }

  /** The regular expressions of removeCodec. */
  datatype Pattern =
    | RtpmapOf(codec: string)   // (a=rtpmap:(\d*) <codec>/90000\r\n)       demo.js:304
    | AptOf(pt: string)         // (a=fmtp:(\d*) apt=<pt>\r\n)              demo.js:318
    | LineFrom(prefix: string)  // (<prefix>.*\r\n)                          demo.js:312, 315, 325, 329

  /** A match at the start of a text: its length and the text of group 2 (empty when there is none). */
  datatype Head = Head(len: nat, group: string)

  /**
    What `pat` matches when tried at the start of `t`. A greedy `\d*` that is
    followed by a space, and a greedy `.*` that is followed by `\r`, can never
    give back characters to let the rest match (a digit is not a space, a
    non-terminator is not `\r`), so the longest run is the only candidate.
  */
  function HeadMatch(pat: Pattern, t: string): (r: Option<Head>)
    ensures r.Some? ==> 2 <= r.value.len <= |t|
  {
    match pat
    case RtpmapOf(codec) => Captured(t, "a=rtpmap:", " " + codec + "/90000" + CRLF)
    case AptOf(pt) => Captured(t, "a=fmtp:", " apt=" + pt + CRLF)
    case LineFrom(prefix) =>
      if StartsWith(t, prefix) then
        var e := RunEnd(t, |prefix|);
        if StartsWith(t[e..], CRLF) then Some(Head(e + 2, [])) else None
      else None
  }

  /** `<head>(\d*)<tail>` at the start of `t`; group 2 is the digit run. */
  function Captured(t: string, head: string, tail: string): (r: Option<Head>)
    requires 2 <= |tail|
    ensures r.Some? ==> 2 <= r.value.len <= |t|
  {
    if StartsWith(t, head) then
      var e := DigitsEnd(t, |head|);
      if StartsWith(t[e..], tail) then Some(Head(e + |tail|, t[|head|..e])) else None
    else None
  }

  /** A way of matching at the start of a text, such as a regular expression. */
  type Matcher = string -> Option<Head>

  /** A match holds at least two characters (each pattern here ends in CRLF) and never runs past the end of the text. */
  ghost predicate Sound(m: Matcher) {
    forall t :: m(t).Some? ==> 2 <= m(t).value.len <= |t|
  }

  /** The regular expression `pat` as a matcher. */
  function Matches(pat: Pattern): (m: Matcher)
    ensures Sound(m)
  {
    t => HeadMatch(pat, t)
  }

  /** A match found in a text: where it starts, where it ends, and group 2. */
  datatype Found = Found(start: nat, end: nat, group: string)

  /**
    The leftmost match of `m` in `t` that starts at `i` or later: a search
    whose `lastIndex` is `i`. `Search(m, t, 0)` is `t.match(re)` without the
    `g` flag.
  */
  function Search(m: Matcher, t: string, i: nat): (r: Option<Found>)
    requires Sound(m) && i <= |t|
    ensures r.Some? ==> i <= r.value.start && r.value.start + 2 <= r.value.end <= |t|
    ensures r.Some? ==> m(t[r.value.start..]) == Some(Head(r.value.end - r.value.start, r.value.group))
    decreases |t| - i
  {
    match m(t[i..])
    case Some(h) => Some(Found(i, i + h.len, h.group))
    case None => if i == |t| then None else Search(m, t, i + 1)
  }

  /** No match starts between `i` and the match Search finds, nor after `i` when it finds none. */
  lemma {:induction false} SearchLeftmost(m: Matcher, t: string, i: nat, k: nat)
    requires Sound(m) && i <= k <= |t|
    requires Search(m, t, i).None? || k < Search(m, t, i).value.start
    ensures m(t[k..]).None?
    decreases k - i
  {
    if i < k {
      SearchLeftmost(m, t, i + 1, k);
    }
  }

  /** `t.replace(re, repl)` for the match `f`, with `repl` taken literally. */
  function Splice(t: string, f: Found, repl: string): (r: string)
    requires f.start <= f.end <= |t|
    ensures |r| == |t| - (f.end - f.start) + |repl|
  {
    t[..f.start] + repl + t[f.end..]
  }

  /**
    `t.replace(/…/g, "")`: the matches are found left to right on the original
    text, each search resuming where the previous match ended, and all of them
    are deleted. Resuming at `lastIndex` is searching the rest of the text,
    since matching at a position only looks at the text from there on.
  */
  function RemoveAll(m: Matcher, t: string): (r: string)
    requires Sound(m)
    ensures |r| <= |t|
    decreases |t|
  {
    match Search(m, t, 0)
    case None => t
    case Some(f) => t[..f.start] + RemoveAll(m, t[f.end..])
  }

  /** `s.split(" ")`: the pieces between single spaces, empty pieces included. */
  function Split(s: string): (r: seq<string>)
    ensures |r| > 0
    ensures forall tok <- r :: ' ' !in tok
  {
    if s == [] then [[]]
    else
      var rest := Split(s[1..]);
      if s[0] == ' ' then [[]] + rest
      else [[s[0]] + rest[0]] + rest[1..]
  }

  /** Each token preceded by one space, as `modvideoline += " " + videoelem` builds it. */
  function Spaced(toks: seq<string>): string {
    if toks == [] then [] else " " + toks[0] + Spaced(toks[1..])
  }

  /** The tokens that the forEach at demo.js:336-343 keeps: those equal to neither `pt` nor `rtx`. */
  function Kept(toks: seq<string>, pt: string, rtx: string): (r: seq<string>)
    ensures |r| <= |toks|
    ensures forall tok :: tok in r <==> tok in toks && tok != pt && tok != rtx
  {
    if toks == [] then []
    else if toks[0] == pt || toks[0] == rtx then Kept(toks[1..], pt, rtx)
    else [toks[0]] + Kept(toks[1..], pt, rtx)
  }

  /** The rewritten m=video line, without its CRLF (demo.js:333-343). */
  function RewriteVideoLine(line: string, pt: string, rtx: string): string {
    var toks := Split(line);
    toks[0] + Spaced(Kept(toks[1..], pt, rtx))
  }

  lemma {:induction false} KeptSnoc(toks: seq<string>, x: string, pt: string, rtx: string)
    ensures Kept(toks + [x], pt, rtx) == Kept(toks, pt, rtx) + (if x == pt || x == rtx then [] else [x])
  {
    if toks == [] {
      assert toks + [x] == [x];
    } else {
      assert (toks + [x])[1..] == toks[1..] + [x];
      KeptSnoc(toks[1..], x, pt, rtx);
    }
  }

  lemma {:induction false} SpacedSnoc(toks: seq<string>, x: string)
    ensures Spaced(toks + [x]) == Spaced(toks) + " " + x
  {
    if toks == [] {
      assert toks + [x] == [x];
      assert Spaced([x][1..]) == [];
    } else {
      assert (toks + [x])[1..] == toks[1..] + [x];
      SpacedSnoc(toks[1..], x);
    }
  }

  /**
    The loop of demo.js:333-344 that rebuilds the m=video line from `line`
    (without its CRLF): the first token, then every later token that is
    neither `pt` nor `rtx`, each after one space.
  */
  method BuildVideoLine(line: string, pt: string, rtx: string) returns (r: string)
    ensures r == RewriteVideoLine(line, pt, rtx)
  {
    var elems := Split(line);
    r := elems[0];
    var i := 1;
    while i < |elems|
      invariant 1 <= i <= |elems|
      invariant r == elems[0] + Spaced(Kept(elems[1..i], pt, rtx))
    {
      var elem := elems[i];
      ghost var kept := Kept(elems[1..i], pt, rtx);
      KeptSnoc(elems[1..i], elem, pt, rtx);
      assert elems[1..i + 1] == elems[1..i] + [elem];
      if elem != pt && elem != rtx {
        SpacedSnoc(kept, elem);
        assert Kept(elems[1..i + 1], pt, rtx) == kept + [elem];
        assert r + " " + elem == elems[0] + (Spaced(kept) + " " + elem);
        r := r + " " + elem;
      } else {
        assert Kept(elems[1..i + 1], pt, rtx) == kept + [];
        assert kept + [] == kept;
      }
      i := i + 1;
    }
    assert elems[1..i] == elems[1..];
  }

  /** Splitting undoes the spacing: a line is its first token followed by the others, each after one space. */
  lemma {:induction false} SplitRoundTrip(s: string)
    ensures Split(s)[0] + Spaced(Split(s)[1..]) == s
  {
    if s != [] {
      SplitRoundTrip(s[1..]);
      var rest := Split(s[1..]);
      if s[0] == ' ' {
        assert Split(s)[1..] == rest;
        assert s == [' '] + s[1..];
      } else {
        assert Split(s)[1..] == rest[1..];
        assert s == [s[0]] + s[1..];
      }
    }
  }

  /** Spacing undoes splitting, for tokens without spaces. */
  lemma {:induction false} SplitOfSpaced(h: string, toks: seq<string>)
    requires ' ' !in h
    requires forall tok <- toks :: ' ' !in tok
    ensures Split(h + Spaced(toks)) == [h] + toks
    decreases |h| + |Spaced(toks)|
  {
    if h != [] {
      SplitOfSpaced(h[1..], toks);
      assert (h + Spaced(toks))[1..] == h[1..] + Spaced(toks);
      assert [h[0]] + h[1..] == h;
    } else if toks != [] {
      SplitOfSpaced(toks[0], toks[1..]);
      assert h + Spaced(toks) == [' '] + (toks[0] + Spaced(toks[1..]));
      assert (h + Spaced(toks))[1..] == toks[0] + Spaced(toks[1..]);
      assert [toks[0]] + toks[1..] == toks;
    } else {
      assert h + Spaced(toks) == [];
    }
  }

  /**
    The rewritten m=video line splits into its original first token followed by
    the later tokens that differ from `pt` and `rtx`, in their original order.
  */
  lemma RewriteVideoLineTokens(line: string, pt: string, rtx: string)
    ensures Split(RewriteVideoLine(line, pt, rtx)) == [Split(line)[0]] + Kept(Split(line)[1..], pt, rtx)
  {
    var toks := Split(line);
    SplitOfSpaced(toks[0], Kept(toks[1..], pt, rtx));
  }

  lemma {:induction false} SpacedKeptShorter(toks: seq<string>, pt: string, rtx: string)
    ensures |Spaced(Kept(toks, pt, rtx))| <= |Spaced(toks)|
  {
    if toks != [] {
      SpacedKeptShorter(toks[1..], pt, rtx);
      if toks[0] != pt && toks[0] != rtx {
        assert Kept(toks, pt, rtx) == [toks[0]] + Kept(toks[1..], pt, rtx);
        assert ([toks[0]] + Kept(toks[1..], pt, rtx))[1..] == Kept(toks[1..], pt, rtx);
      }
    }
  }

  /** Rewriting the m=video line never lengthens it. */
  lemma RewriteVideoLineShorter(line: string, pt: string, rtx: string)
    ensures |RewriteVideoLine(line, pt, rtx)| <= |line|
  {
    SplitRoundTrip(line);
    SpacedKeptShorter(Split(line)[1..], pt, rtx);
  }

  /** The m=video step of a pass (demo.js:329-346): the first such line is rewritten in place. */
  function RewriteVideo(t: string, pt: string, rtx: string): string {
    match Search(Matches(LineFrom("m=video")), t, 0)
    case None => t
    case Some(f) =>
      var line := t[f.start..f.end - 2];
      Splice(t, f, RewriteVideoLine(line, pt, rtx) + CRLF)
  }

  /** When the m=video search finds `f`, the step rewrites the line it covers, CRLF aside. */
  lemma RewriteVideoFound(t: string, f: Found, pt: string, rtx: string)
    requires Search(Matches(LineFrom("m=video")), t, 0) == Some(f)
    ensures RewriteVideo(t, pt, rtx) == Splice(t, f, RewriteVideoLine(t[f.start..f.end - 2], pt, rtx) + CRLF)
  {
  }

  /** The m=video step never lengthens the text. */
  lemma RewriteVideoShorter(t: string, pt: string, rtx: string)
    ensures |RewriteVideo(t, pt, rtx)| <= |t|
  {
    match Search(Matches(LineFrom("m=video")), t, 0)
    case None =>
    case Some(f) =>
      RewriteVideoFound(t, f, pt, rtx);
      RewriteVideoLineShorter(t[f.start..f.end - 2], pt, rtx);
  }

  /** Deletes every line that begins "a=rtcp-fb:<pt>", then every line that begins "a=fmtp:<pt>" (demo.js:310-316). */
  function DropPayload(s: string, pt: string): (r: string)
    ensures |r| <= |s|
  {
    RemoveAll(Matches(LineFrom("a=fmtp:" + pt)), RemoveAll(Matches(LineFrom("a=rtcp-fb:" + pt)), s))
  }

  /**
    The retransmission step (demo.js:318-327): the first "a=fmtp:<rtx> apt=<pt>"
    line is deleted and then every line that begins "a=rtpmap:<rtx>". The
    result pairs the text with `rtx`, which is "" when there is no such line.
  */
  function DropRtx(s: string, pt: string): (r: (string, string))
    ensures |r.0| <= |s|
  {
    match Search(Matches(AptOf(pt)), s, 0)
    case None => (s, [])
    case Some(a) => (RemoveAll(Matches(LineFrom("a=rtpmap:" + a.group)), Splice(s, a, [])), a.group)
  }

  predicate HasRtpmap(sdp: string, codec: string) {
    Search(Matches(RtpmapOf(codec)), sdp, 0).Some?
  }

  /**
    One pass of internalFunc (demo.js:303-346); None when the codec's rtpmap
    line is absent (demo.js:306-308). The payload type `pt` is group 2 of the
    rtpmap match and `rtx` group 2 of the apt match.
  */
  function Pass(sdp: string, codec: string): (r: Option<string>)
    ensures r.None? <==> !HasRtpmap(sdp, codec)
    ensures r.Some? ==> |r.value| < |sdp|
  {
    match Search(Matches(RtpmapOf(codec)), sdp, 0)
    case None => None
    case Some(m) =>
      var pt := m.group;
      var (s, rtx) := DropRtx(DropPayload(Splice(sdp, m, []), pt), pt);
      RewriteVideoShorter(s, pt, rtx);
      Some(RewriteVideo(s, pt, rtx))
  }

  /**
    removeCodec (demo.js:302-350): passes are repeated until the codec's rtpmap
    line is gone. Every pass shortens the text, so the recursion ends, and the
    result holds no rtpmap line for the codec; a text without one comes back
    unchanged.
  */
  function RemoveCodec(sdp: string, codec: string): (r: string)
    ensures !HasRtpmap(r, codec)
    ensures !HasRtpmap(sdp, codec) ==> r == sdp
    ensures |r| <= |sdp|
    decreases |sdp|
  {
    match Pass(sdp, codec)
    case None => sdp
    case Some(next) => RemoveCodec(next, codec)
  }

  /** Removing a codec twice is the same as removing it once. */
  lemma RemoveCodecIdempotent(sdp: string, codec: string)
    ensures RemoveCodec(RemoveCodec(sdp, codec), codec) == RemoveCodec(sdp, codec)
  {
  }

  /** The filter makeOffer applies to its offer before committing it (demo.js:236-237). */
  function StripVideoCodecs(sdp: string): (r: string)
    ensures !HasRtpmap(r, "VP9")
    ensures |r| <= |sdp|
  {
    RemoveCodec(RemoveCodec(sdp, "VP8"), "VP9")
  }
}
