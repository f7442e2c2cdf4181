/**
 * The textual form of a libp2p multiaddr: a run of `/<component>` pieces.
 * `Segments` writes such a run and `SplitSegments` is the reference reader
 * that cuts a text back into its components; the round trip holds when no
 * component itself contains '/'.
 */
module Multiaddr {
  import Text

  predicate NoSlash(s: string) {
    Text.Lacks(s, '/')
  }

  predicate AllNoSlash(segs: seq<string>) {
    forall i :: 0 <= i < |segs| ==> NoSlash(segs[i])
  }

  /** `["ip4", h, "tcp", p]` becomes `"/ip4/h/tcp/p"`. */
  function Segments(segs: seq<string>): string {
    if segs == [] then "" else "/" + segs[0] + Segments(segs[1..])
  }

  lemma SegmentsCons(seg: string, rest: seq<string>)
    ensures Segments([seg] + rest) == "/" + seg + Segments(rest)
  {
    assert ([seg] + rest)[1..] == rest;
  }

  /** The longest prefix of `s` that holds no '/'. */
  function UpToSlash(s: string): (p: string)
    ensures |p| <= |s| && p == s[..|p|] && NoSlash(p)
    ensures |p| < |s| ==> s[|p|] == '/'
  {
    if s == [] || s[0] == '/' then "" else [s[0]] + UpToSlash(s[1..])
  }

  /** Cuts a multiaddr text into its components (the first '/' is skipped). */
  function SplitSegments(s: string): seq<string>
    decreases |s|
  {
    if s == [] then []
    else
      var rest := s[1..];
      var seg := UpToSlash(rest);
      [seg] + SplitSegments(rest[|seg|..])
  }

  lemma {:induction false} UpToSlashOf(seg: string, rest: string)
    requires NoSlash(seg)
    requires rest == [] || rest[0] == '/'
    ensures UpToSlash(seg + rest) == seg
  {
    if seg != [] {
      assert (seg + rest)[1..] == seg[1..] + rest;
      UpToSlashOf(seg[1..], rest);
    }
  }

  /** Splitting what `Segments` wrote gives back the components. */
  lemma {:induction false} SplitSegmentsRoundTrip(segs: seq<string>)
    requires AllNoSlash(segs)
    ensures SplitSegments(Segments(segs)) == segs
  {
    if segs != [] {
      var tail := Segments(segs[1..]);
      var s := "/" + segs[0] + tail;
      assert s[1..] == segs[0] + tail;
      assert tail == [] || tail[0] == '/';
      UpToSlashOf(segs[0], tail);
      assert (segs[0] + tail)[|segs[0]|..] == tail;
      SplitSegmentsRoundTrip(segs[1..]);
    }
  }
}
