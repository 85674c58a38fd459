/** hack/pin-operator-digest.py: pinning the operator's own image by digest. */
module PinDigest {
  // ---- The pattern: the repository, then `:tag` or `@sha256:<64 hex>` ----

  // `wide` says which characters beyond ASCII are word characters.
  datatype Pattern = Pattern(repo: string, wide: char -> bool)

  predicate Hex(c: char) {
    '0' <= c <= '9' || 'a' <= c <= 'f'
  }

  predicate Tag(p: Pattern, c: char) {
    'a' <= c <= 'z' || 'A' <= c <= 'Z' || '0' <= c <= '9' || c == '_' || c == '.' || c == '-'
        || (c >= '\U{80}' && p.wide(c))
  }

  predicate IsDigest(d: string) {
    |d| == 71 && d[..7] == "sha256:" && forall i | 7 <= i < 71 :: Hex(d[i])
  }

  function TagRun(p: Pattern, s: string): (n: nat)
    ensures n <= |s|
    ensures n == 0 <==> s == "" || !Tag(p, s[0])
  {
    if s == "" || !Tag(p, s[0]) then 0 else 1 + TagRun(p, s[1..])
  }

  // The length of the match at the start of s, 0 if there is none.
  function MatchLen(p: Pattern, s: string): (n: nat)
    ensures n <= |s|
    ensures n > 0 ==> p.repo <= s
  {
    if !(p.repo <= s) then 0
    else
      var rest := s[|p.repo|..];
      if |rest| > 1 && rest[0] == ':' && TagRun(p, rest[1..]) > 0 then |p.repo| + 1 + TagRun(p, rest[1..])
      else if |rest| >= 72 && rest[0] == '@' && IsDigest(rest[1..72]) then |p.repo| + 72
      else 0
  }

  // What the pattern describes: the repository and a tag, or the repository and a digest.
  ghost predicate IsRef(p: Pattern, ref: string) {
    p.repo <= ref &&
    var rest := ref[|p.repo|..];
    || (|rest| > 1 && rest[0] == ':' && forall i | 1 <= i < |rest| :: Tag(p, rest[i]))
    || (|rest| == 72 && rest[0] == '@' && IsDigest(rest[1..]))
  }

  lemma {:induction false} TagRunIsLongest(p: Pattern, s: string)
    ensures forall i | 0 <= i < TagRun(p, s) :: Tag(p, s[i])
    ensures TagRun(p, s) < |s| ==> !Tag(p, s[TagRun(p, s)])
  {
    if s != "" && Tag(p, s[0]) {
      TagRunIsLongest(p, s[1..]);
      forall i | 0 < i < TagRun(p, s)
        ensures Tag(p, s[i])
      {
        assert s[i] == s[1..][i - 1];
      }
    }
  }

  // The match is the longest reference at the start of s; there is none if MatchLen is 0.
  lemma LongestMatch(p: Pattern, s: string)
    ensures MatchLen(p, s) > 0 ==> IsRef(p, s[..MatchLen(p, s)])
    ensures forall n | MatchLen(p, s) < n <= |s| :: !IsRef(p, s[..n])
  {
    if p.repo <= s {
      var r := |p.repo|;
      var rest := s[r..];
      var len := MatchLen(p, s);
      if |rest| > 1 {
        TagRunIsLongest(p, rest[1..]);
      }
      if len > 0 {
        RefPrefix(p, s, len);
      }
      forall n | len < n <= |s|
        ensures !IsRef(p, s[..n])
      {
        if p.repo <= s[..n] {
          assert s[..n][r..] == rest[..n - r];
          if n - r == 72 {
            assert rest[..72][1..] == rest[1..72];
          }
          if n - r > 1 && rest[0] == ':' {
            var k := TagRun(p, rest[1..]);
            assert rest[..n - r][k + 1] == rest[1..][k];
          }
        }
      }
    }
  }

  lemma RefPrefix(p: Pattern, s: string, len: nat)
    requires len == MatchLen(p, s) > 0
    ensures IsRef(p, s[..len])
  {
    var r := |p.repo|;
    var rest := s[r..];
    assert s[..len][r..] == rest[..len - r];
    assert p.repo <= s[..len];
    if rest[0] == ':' {
      TagRunIsLongest(p, rest[1..]);
      assert forall i | 1 <= i < len - r :: rest[i] == rest[1..][i - 1];
    } else {
      assert rest[..72][1..] == rest[1..72];
    }
  }

  // ---- findall, subn and main ----

  // Leftmost, non-overlapping matches.
  function FindAll(p: Pattern, s: string): seq<string>
    decreases |s|
  {
    if s == "" then []
    else
      var n := MatchLen(p, s);
      if n == 0 then FindAll(p, s[1..]) else [s[..n]] + FindAll(p, s[n..])
  }

  function Sub(p: Pattern, pinned: string, s: string): string
    decreases |s|
  {
    if s == "" then ""
    else
      var n := MatchLen(p, s);
      if n == 0 then [s[0]] + Sub(p, pinned, s[1..]) else pinned + Sub(p, pinned, s[n..])
  }

  function Pinned(p: Pattern, digest: string): string {
    p.repo + "@" + digest
  }

  datatype Outcome =
    | BadDigest                              // exit code 2
    | NoReference                            // exit code 3
    | Unchanged(refs: nat)
    | Rewritten(text: string, refs: nat)

  function Run(p: Pattern, digest: string, text: string): Outcome {
    if !IsDigest(digest) then BadDigest
    else if FindAll(p, text) == [] then NoReference
    else
      var next := Sub(p, Pinned(p, digest), text);
      var n := |FindAll(p, text)|;
      if next == text then Unchanged(n) else Rewritten(next, n)
  }

  // ---- Nothing but the references changes ----

  datatype Piece = Piece(gap: string, ref: string)

  function Join(pieces: seq<Piece>, tail: string): string {
    if pieces == [] then tail else pieces[0].gap + pieces[0].ref + Join(pieces[1..], tail)
  }

  function AllPinned(pieces: seq<Piece>, pinned: string): seq<Piece> {
    seq(|pieces|, i requires 0 <= i < |pieces| => pieces[i].(ref := pinned))
  }

  function Refs(pieces: seq<Piece>): seq<string> {
    seq(|pieces|, i requires 0 <= i < |pieces| => pieces[i].ref)
  }

  // No reference starts in the gap, whatever follows it.
  ghost predicate NoRefIn(p: Pattern, s: string, gap: nat)
    requires gap <= |s|
  {
    forall k | 0 <= k < gap :: MatchLen(p, s[k..]) == 0
  }

  // The number of characters before the first reference.
  function Gap(p: Pattern, s: string): (n: nat)
    ensures n <= |s|
    ensures n < |s| ==> MatchLen(p, s[n..]) > 0
    ensures n > 0 ==> MatchLen(p, s) == 0
  {
    if s == "" || MatchLen(p, s) > 0 then 0
    else
      assert forall n | 0 <= n < |s| :: s[1..][n..] == s[1 + n..];
      1 + Gap(p, s[1..])
  }

  lemma {:induction false} GapHasNoRef(p: Pattern, s: string)
    ensures NoRefIn(p, s, Gap(p, s))
    decreases |s|
  {
    hide MatchLen;
    if s != "" && MatchLen(p, s) == 0 {
      GapHasNoRef(p, s[1..]);
      forall k | 0 <= k < Gap(p, s)
        ensures MatchLen(p, s[k..]) == 0
      {
        if k > 0 {
          assert s[1..][k - 1..] == s[k..];
        } else {
          assert s[0..] == s;
        }
      }
    }
  }

  // One step of the scan.
  lemma ScanStep(p: Pattern, pinned: string, s: string)
    requires s != ""
    ensures var n := MatchLen(p, s);
            if n == 0 then Sub(p, pinned, s) == [s[0]] + Sub(p, pinned, s[1..]) && FindAll(p, s) == FindAll(p, s[1..])
            else Sub(p, pinned, s) == pinned + Sub(p, pinned, s[n..]) && FindAll(p, s) == [s[..n]] + FindAll(p, s[n..])
  {
    hide MatchLen;
  }

  // The text up to the first reference is copied.
  lemma {:induction false} SubSplit(p: Pattern, pinned: string, s: string)
    ensures var m := Gap(p, s);
            if m == |s| then Sub(p, pinned, s) == s && FindAll(p, s) == []
            else
              var end := m + MatchLen(p, s[m..]);
              && Sub(p, pinned, s) == s[..m] + (pinned + Sub(p, pinned, s[end..]))
              && FindAll(p, s) == [s[m..end]] + FindAll(p, s[end..])
    decreases |s|
  {
    hide MatchLen, Sub, FindAll, Gap;
    var m := Gap(p, s);
    if s == "" {
      NothingToScan(p, pinned);
    } else if MatchLen(p, s) > 0 {
      ScanStep(p, pinned, s);
      GapStep(p, s);
      assert s[0..] == s;
    } else {
      ScanStep(p, pinned, s);
      var t := s[1..];
      SubSplit(p, pinned, t);
      GapStep(p, s);
      if m < |s| {
        var n := MatchLen(p, s[m..]);
        assert s[m..] == t[m - 1..];
        assert s[m + n..] == t[m - 1 + n..];
        assert s[m..m + n] == t[m - 1..m - 1 + n];
        var last := pinned + Sub(p, pinned, s[m + n..]);
        assert s[..m] == [s[0]] + t[..m - 1];
        assert [s[0]] + (t[..m - 1] + last) == s[..m] + last;
      }
    }
  }

  lemma GapStep(p: Pattern, s: string)
    requires s != ""
    ensures Gap(p, s) == if MatchLen(p, s) > 0 then 0 else 1 + Gap(p, s[1..])
  {
    hide MatchLen;
  }

  lemma NothingToScan(p: Pattern, pinned: string)
    ensures Sub(p, pinned, "") == "" && FindAll(p, "") == [] && Gap(p, "") == 0
  {
  }

  function Split(p: Pattern, s: string): (r: (seq<Piece>, string))
    decreases |s|
  {
    var m := Gap(p, s);
    if m == |s| then ([], s)
    else
      var n := MatchLen(p, s[m..]);
      var rest := Split(p, s[m + n..]);
      ([Piece(s[..m], s[m..m + n])] + rest.0, rest.1)
  }

  lemma JoinCons(first: Piece, pieces: seq<Piece>, tail: string, pinned: string)
    ensures Join([first] + pieces, tail) == first.gap + (first.ref + Join(pieces, tail))
    ensures Join(AllPinned([first] + pieces, pinned), tail) ==
        first.gap + (pinned + Join(AllPinned(pieces, pinned), tail))
    ensures Refs([first] + pieces) == [first.ref] + Refs(pieces)
  {
    assert ([first] + pieces)[1..] == pieces;
    assert AllPinned([first] + pieces, pinned)[1..] == AllPinned(pieces, pinned);
    assert first.gap + first.ref + Join(pieces, tail) == first.gap + (first.ref + Join(pieces, tail));
  }

  // The text is a list of gaps and references; the result has the same gaps, in order,
  // and the pinned reference for each reference. findall lists the references.
  lemma {:induction false} OnlyReferencesChange(p: Pattern, pinned: string, s: string)
    ensures var r := Split(p, s);
            && s == Join(r.0, r.1)
            && Sub(p, pinned, s) == Join(AllPinned(r.0, pinned), r.1)
            && FindAll(p, s) == Refs(r.0)
    decreases |s|
  {
    hide MatchLen, Sub, FindAll, Join, AllPinned, Refs, Gap;
    SubSplit(p, pinned, s);
    var m := Gap(p, s);
    if m < |s| {
      var end := m + MatchLen(p, s[m..]);
      var gap, ref, later := s[..m], s[m..end], s[end..];
      OnlyReferencesChange(p, pinned, later);
      var rest := Split(p, later);
      JoinCons(Piece(gap, ref), rest.0, rest.1, pinned);
      Cut(s, m, end);
      assert Split(p, s) == ([Piece(gap, ref)] + rest.0, rest.1);
    } else {
      NoPieces(s, pinned);
    }
  }

  lemma Cut(s: string, m: nat, end: nat)
    requires m <= end <= |s|
    ensures s == s[..m] + (s[m..end] + s[end..])
  {
  }

  lemma NoPieces(tail: string, pinned: string)
    ensures Join([], tail) == tail && AllPinned([], pinned) == [] && Refs([]) == []
  {
  }

  // findall finds nothing exactly when the pattern matches at no offset.
  lemma {:induction false} NotFoundMeansNowhere(p: Pattern, s: string)
    ensures FindAll(p, s) == [] <==> NoRefIn(p, s, |s|)
  {
    hide MatchLen, FindAll;
    SubSplit(p, "", s);
    GapHasNoRef(p, s);
    var m := Gap(p, s);
    if m < |s| {
      assert MatchLen(p, s[m..]) > 0;
    }
  }

  // ---- Pinning twice ----

  lemma PinnedThen(p: Pattern, digest: string, rest: string)
    ensures Pinned(p, digest) + rest == p.repo + ("@" + (digest + rest))
  {
  }

  lemma PinnedMatches(p: Pattern, digest: string, rest: string)
    requires IsDigest(digest)
    ensures MatchLen(p, Pinned(p, digest) + rest) == |Pinned(p, digest)|
  {
    hide IsDigest;
    var s := Pinned(p, digest) + rest;
    PinnedThen(p, digest, rest);
    assert s[..|p.repo|] == p.repo;
    var after := s[|p.repo|..];
    assert after == "@" + (digest + rest);
    DigestLength(digest);
    assert after[1..72] == digest;
  }

  lemma DigestLength(digest: string)
    requires IsDigest(digest)
    ensures |digest| == 71
  {
  }

  // A character that starts no reference starts none after pinning either: a new match
  // would have to reach over the '@' of the next pinned reference.
  lemma NoNewMatch(p: Pattern, digest: string, s: string)
    requires '@' !in p.repo && IsDigest(digest) && s != "" && MatchLen(p, s) == 0
    ensures MatchLen(p, Sub(p, Pinned(p, digest), s)) == 0
  {
    hide Sub, FindAll, Gap, MatchLen, IsDigest, Pinned;
    var pinned := Pinned(p, digest);
    var out := Sub(p, pinned, s);
    var m := Gap(p, s);
    SubSplit(p, pinned, s);
    GapPositive(p, s);
    if m == |s| {
      assert out == s;
    } else {
      SharedPrefix(p, digest, s);
      if MatchLen(p, out) > 0 {
        MatchIsOld(p, s, out, m);
      }
    }
  }

  lemma GapPositive(p: Pattern, s: string)
    requires s != "" && MatchLen(p, s) == 0
    ensures Gap(p, s) > 0
  {
  }

  lemma Overlay(s: string, m: nat, repo: string, out: string, tail: string)
    requires m <= |s| && repo <= s[m..] && out == s[..m] + (repo + tail) && tail != "" && tail[0] == '@'
    ensures var k := m + |repo|;
            k <= |s| && k < |out| && out[..k] == s[..k] && out[k] == '@' && s[m..k] == repo
  {
    var k := m + |repo|;
    assert s[m..k] == repo;
    assert s[..k] == s[..m] + repo;
    assert out == s[..k] + tail;
  }

  // Text and result agree up to the end of the next occurrence of the repository, and
  // there the result has an '@'.
  lemma SharedPrefix(p: Pattern, digest: string, s: string)
    requires Gap(p, s) < |s|
    ensures var out := Sub(p, Pinned(p, digest), s);
            var m := Gap(p, s);
            var k := m + |p.repo|;
            && k <= |s| && k < |out|
            && out[..k] == s[..k] && out[k] == '@'
            && s[m..k] == p.repo
  {
    hide Sub, FindAll, MatchLen, Gap, Pinned;
    var m := Gap(p, s);
    var end := m + MatchLen(p, s[m..]);
    SubSplit(p, Pinned(p, digest), s);
    PinnedOverlay(p, digest, s, m, Sub(p, Pinned(p, digest), s[end..]));
  }

  lemma PinnedOverlay(p: Pattern, digest: string, s: string, m: nat, rest: string)
    requires m <= |s| && p.repo <= s[m..]
    ensures var out := s[..m] + (Pinned(p, digest) + rest);
            var k := m + |p.repo|;
            k <= |s| && k < |out| && out[..k] == s[..k] && out[k] == '@' && s[m..k] == p.repo
  {
    hide Pinned;
    var tail := "@" + (digest + rest);
    PinnedThen(p, digest, rest);
    Overlay(s, m, p.repo, s[..m] + (Pinned(p, digest) + rest), tail);
  }

  lemma MatchIsOld(p: Pattern, s: string, out: string, m: nat)
    requires '@' !in p.repo && 0 < m
    requires var k := m + |p.repo|; k <= |s| && k < |out| && out[..k] == s[..k] && out[k] == '@' && s[m..k] == p.repo
    requires MatchLen(p, out) > 0
    ensures MatchLen(p, s) > 0
  {
    var r := |p.repo|;
    var k := m + r;
    assert forall i | 0 <= i < k :: out[i] == s[i];
    assert p.repo <= s;
    var rest, was := out[r..], s[r..];
    assert forall i | 0 <= i < m :: rest[i] == out[r + i] == s[r + i] == was[i];
    assert rest[m] == '@';
    if rest[0] == ':' && TagRun(p, rest[1..]) > 0 {
      assert Tag(p, rest[1]);
      assert was[1] == rest[1];
      assert TagRun(p, was[1..]) > 0;
    } else {
      assert rest[0] == '@' && IsDigest(rest[1..72]);
      if m < 72 {
        assert rest[1..72][m - 1] == '@';
        NoAt(rest[1..72], m - 1);
        assert false;
      }
      assert was[1..72] == rest[1..72];
    }
  }

  lemma NoAt(digest: string, i: nat)
    requires IsDigest(digest) && i < 71
    ensures digest[i] != '@'
  {
    if i < 7 {
      assert digest[i] == digest[..7][i];
    }
  }

  // Pinning is idempotent: a second run finds as many references, each one pinned, and
  // changes nothing.
  lemma {:induction false} PinTwice(p: Pattern, digest: string, s: string)
    requires '@' !in p.repo && IsDigest(digest)
    ensures var pinned := Pinned(p, digest);
            var out := Sub(p, pinned, s);
            && Sub(p, pinned, out) == out
            && |FindAll(p, out)| == |FindAll(p, s)|
            && forall ref | ref in FindAll(p, out) :: ref == pinned
    decreases |s|
  {
    hide MatchLen, IsDigest;
    var pinned := Pinned(p, digest);
    if s != "" {
      var n := MatchLen(p, s);
      var out := Sub(p, pinned, s);
      if n == 0 {
        PinTwice(p, digest, s[1..]);
        NoNewMatch(p, digest, s);
        assert out[1..] == Sub(p, pinned, s[1..]);
      } else {
        PinTwice(p, digest, s[n..]);
        PinnedMatches(p, digest, Sub(p, pinned, s[n..]));
        assert out[|pinned|..] == Sub(p, pinned, s[n..]);
        assert out[..|pinned|] == pinned;
      }
    }
  }

  lemma RerunIsNoChange(p: Pattern, digest: string, text: string)
    requires '@' !in p.repo && Run(p, digest, text).Rewritten?
    ensures Run(p, digest, Run(p, digest, text).text) == Unchanged(Run(p, digest, text).refs)
  {
    hide MatchLen, IsDigest, FindAll, Sub;
    PinTwice(p, digest, text);
  }

  // ---- The submission guard ----

  // The repository followed by a tag, at the start of s.
  predicate Tagged(p: Pattern, s: string) {
    p.repo <= s && |p.repo| + 1 < |s| && s[|p.repo|] == ':' && Tag(p, s[|p.repo| + 1])
  }

  ghost predicate TaggedAnywhere(p: Pattern, s: string) {
    exists k | 0 <= k <= |s| :: Tagged(p, s[k..])
  }

  // A tagged reference can begin inside a digest: the repository is the end of
  // "sha256", or begins with an end of the digest.
  predicate Clash(repo: string, digest: string)
    requires IsDigest(digest)
  {
    (exists d | 0 <= d <= 6 :: digest[d..6] == repo) || (exists d | 0 <= d < 71 :: digest[d..] <= repo)
  }

  lemma TaggedIsMatch(p: Pattern, s: string)
    requires Tagged(p, s)
    ensures MatchLen(p, s) > 0
  {
    var rest := s[|p.repo|..];
    assert rest[1..][0] == s[|p.repo| + 1];
  }

  // A tagged reference that begins inside a pinned one begins in the digest and clashes.
  lemma TaggedInPinned(p: Pattern, digest: string, rest: string, k: nat)
    requires IsDigest(digest) && k < |Pinned(p, digest)| && Tagged(p, (Pinned(p, digest) + rest)[k..])
    ensures '@' in p.repo || Clash(p.repo, digest)
  {
    var s := (Pinned(p, digest) + rest)[k..];
    var r := |p.repo|;
    assert forall i | 0 <= i < r :: s[i] == p.repo[i];
    if k <= r {
      assert s[r - k] == '@';
      assert k > 0;
      assert p.repo[r - k] == '@';
    } else {
      var d := k - r - 1;
      assert forall i | 0 <= i < 71 - d :: s[i] == digest[d + i];
      InDigest(p, digest, s, d);
    }
  }

  lemma InDigest(p: Pattern, digest: string, s: string, d: nat)
    requires IsDigest(digest) && d < 71 && digest[d..] <= s && Tagged(p, s)
    ensures Clash(p.repo, digest)
  {
    var r := |p.repo|;
    if r < 71 - d {
      assert s[r] == digest[d..][r];
      ColonPlace(digest, d + r);
      assert s[..6 - d] == digest[d..][..6 - d] == digest[d..6];
    } else {
      assert s[..71 - d] == digest[d..];
      assert p.repo[..71 - d] == digest[d..];
    }
  }

  lemma ColonPlace(digest: string, i: nat)
    requires IsDigest(digest) && i < 71 && digest[i] == ':'
    ensures i == 6
  {
    if i < 7 {
      assert digest[i] == digest[..7][i];
    }
  }

  // No tagged reference begins in a gap either.
  lemma GapIsUntagged(p: Pattern, digest: string, s: string)
    requires '@' !in p.repo && IsDigest(digest) && s != "" && MatchLen(p, s) == 0
    ensures !Tagged(p, Sub(p, Pinned(p, digest), s))
  {
    hide MatchLen, Sub;
    NoNewMatch(p, digest, s);
    if Tagged(p, Sub(p, Pinned(p, digest), s)) {
      TaggedIsMatch(p, Sub(p, Pinned(p, digest), s));
    }
  }

  lemma {:induction false} SubIsUntagged(p: Pattern, digest: string, s: string, k: nat)
    requires '@' !in p.repo && IsDigest(digest) && !Clash(p.repo, digest)
    requires k <= |Sub(p, Pinned(p, digest), s)|
    ensures !Tagged(p, Sub(p, Pinned(p, digest), s)[k..])
    decreases |s|
  {
    hide MatchLen, Tagged, Clash, IsDigest;
    var pinned := Pinned(p, digest);
    var out := Sub(p, pinned, s);
    if s == "" {
      EmptyIsUntagged(p);
    } else {
      var n := MatchLen(p, s);
      if n == 0 {
        if k == 0 {
          GapIsUntagged(p, digest, s);
          assert out[0..] == out;
        } else {
          SubIsUntagged(p, digest, s[1..], k - 1);
          assert out[k..] == Sub(p, pinned, s[1..])[k - 1..];
        }
      } else if k < |pinned| {
        if Tagged(p, out[k..]) {
          TaggedInPinned(p, digest, Sub(p, pinned, s[n..]), k);
        }
      } else {
        SubIsUntagged(p, digest, s[n..], k - |pinned|);
        assert out[k..] == Sub(p, pinned, s[n..])[k - |pinned|..];
      }
    }
  }

  lemma EmptyIsUntagged(p: Pattern)
    ensures !Tagged(p, "")
  {
  }

  // A text that shows the clash: pinned already, and yet tagged.
  function Witness(p: Pattern, digest: string, d: nat): string
    requires IsDigest(digest) && d < 71
  {
    Pinned(p, digest) + (if digest[d..] <= p.repo then p.repo[71 - d..] + ":v" else "")
  }

  lemma {:induction false} ShortIsKept(p: Pattern, pinned: string, s: string)
    requires |s| < |p.repo| + 2
    ensures Sub(p, pinned, s) == s
  {
    if s != "" {
      ShortIsKept(p, pinned, s[1..]);
    }
  }

  lemma WitnessIsTagged(p: Pattern, digest: string, d: nat)
    requires IsDigest(digest) && d < 71 && (digest[d..] <= p.repo || (d <= 6 && digest[d..6] == p.repo))
    ensures Tagged(p, Witness(p, digest, d)[|p.repo| + 1 + d..])
  {
    var seen := Witness(p, digest, d)[|p.repo| + 1 + d..];
    if digest[d..] <= p.repo {
      assert seen == p.repo + ":v";
    } else {
      assert seen == digest[d..];
      SixIsColon(digest);
      assert seen[6 - d] == digest[6] && seen[7 - d] == digest[7];
    }
  }

  lemma SixIsColon(digest: string)
    requires IsDigest(digest)
    ensures digest[6] == ':'
  {
    assert digest[..7][6] == digest[6];
  }

  lemma ClashIsSeen(p: Pattern, digest: string)
    requires IsDigest(digest) && Clash(p.repo, digest)
    ensures exists text: string :: TaggedAnywhere(p, Sub(p, Pinned(p, digest), text))
  {
    hide MatchLen, Sub, Tagged;
    var d :| 0 <= d < 71 && (digest[d..] <= p.repo || (d <= 6 && digest[d..6] == p.repo));
    var text := Witness(p, digest, d);
    WitnessIsTagged(p, digest, d);
    KeepsPinned(p, digest, if digest[d..] <= p.repo then p.repo[71 - d..] + ":v" else "");
    assert TaggedAnywhere(p, text);
  }

  lemma KeepsPinned(p: Pattern, digest: string, tail: string)
    requires IsDigest(digest) && |tail| < |p.repo| + 2
    ensures Sub(p, Pinned(p, digest), Pinned(p, digest) + tail) == Pinned(p, digest) + tail
  {
    hide MatchLen;
    var pinned := Pinned(p, digest);
    PinnedMatches(p, digest, tail);
    assert (pinned + tail)[|pinned|..] == tail;
    ShortIsKept(p, pinned, tail);
  }

  // Pinning clears the guard for every text exactly when the repository does not clash
  // with the digest.
  lemma PinningClearsGuard(p: Pattern, digest: string)
    requires '@' !in p.repo && IsDigest(digest)
    ensures (forall text: string :: !TaggedAnywhere(p, Sub(p, Pinned(p, digest), text))) <==> !Clash(p.repo, digest)
  {
    hide MatchLen, Sub, Tagged, Clash, IsDigest;
    if Clash(p.repo, digest) {
      ClashIsSeen(p, digest);
    } else {
      forall text: string
        ensures !TaggedAnywhere(p, Sub(p, Pinned(p, digest), text))
      {
        var out := Sub(p, Pinned(p, digest), text);
        forall k | 0 <= k <= |out|
          ensures !Tagged(p, out[k..])
        {
          SubIsUntagged(p, digest, text, k);
        }
      }
    }
  }

  // A repository whose first character occurs in no digest never clashes.
  lemma OrdinaryRepoIsSafe(repo: string, digest: string)
    requires IsDigest(digest) && repo != "" && repo[0] !in {'s', 'h', ':'} && !Hex(repo[0])
    ensures !Clash(repo, digest)
  {
    forall d | 0 <= d < 71
      ensures digest[d] != repo[0]
    {
      DigestCharacter(digest, d);
    }
  }

  lemma DigestCharacter(digest: string, d: nat)
    requires IsDigest(digest) && d < 71
    ensures digest[d] in {'s', 'h', ':'} || Hex(digest[d])
  {
    if d < 7 {
      assert digest[d] == digest[..7][d];
    }
  }

  // A repository clashes with every digest that ends in its first character.
  lemma LastCharacterClashes(repo: string, digest: string)
    requires IsDigest(digest) && repo != "" && repo[0] == digest[70]
    ensures Clash(repo, digest)
  {
    assert digest[70..] == [repo[0]] <= repo;
  }

  // A digest that ends in c.
  function DigestEnding(c: char): (digest: string)
    requires Hex(c)
    ensures IsDigest(digest) && digest[70] == c
  {
    "sha256:" + seq(63, _ => '0') + [c]
  }

  // The repository begins with "sha256:" from its d-th character on, and 64 hex digits.
  predicate BeginsLikeDigest(repo: string, d: nat) {
    d < 7 && 71 - d <= |repo| && repo[..7 - d] == "sha256:"[d..] && forall i | 7 - d <= i < 71 - d :: Hex(repo[i])
  }

  // A repository is safe with every digest exactly when it is not empty, does not begin
  // with a hex digit, is not "sha256" or "ha256", and does not begin like a digest from
  // the 's', the 'h' or the ':' on.
  lemma SafeForEveryDigest(repo: string)
    ensures (forall digest | IsDigest(digest) :: !Clash(repo, digest)) <==>
            && repo != "" && !Hex(repo[0])
            && repo != "sha256" && repo != "ha256"
            && !BeginsLikeDigest(repo, 0) && !BeginsLikeDigest(repo, 1) && !BeginsLikeDigest(repo, 6)
  {
    hide IsDigest, DigestEnding, BeginsLikeDigest, Clash;
    if repo == "" {
      EmptyClashes(DigestEnding('0'));
    } else if Hex(repo[0]) {
      LastCharacterClashes(repo, DigestEnding(repo[0]));
    } else if repo == "sha256" || repo == "ha256" {
      AlgorithmClashes(repo, DigestEnding('0'));
    } else if d :| d in {0, 1, 6} && BeginsLikeDigest(repo, d) {
      LikeDigestClashes(repo, d);
    } else {
      forall digest | IsDigest(digest)
        ensures !Clash(repo, digest)
      {
        if Clash(repo, digest) {
          ClashShapes(repo, digest);
        }
      }
    }
  }

  lemma AlgorithmClashes(repo: string, digest: string)
    requires IsDigest(digest) && (repo == "sha256" || repo == "ha256")
    ensures Clash(repo, digest)
  {
    assert digest[..7] == "sha256:";
    assert digest[0..6] == digest[..7][0..6] && digest[1..6] == digest[..7][1..6];
  }

  lemma LikeDigestClashes(repo: string, d: nat)
    requires BeginsLikeDigest(repo, d)
    ensures exists digest :: IsDigest(digest) && Clash(repo, digest)
  {
    var digest := "sha256:"[..d] + repo[..71 - d];
    assert digest[..7] == "sha256:"[..d] + repo[..7 - d];
    assert digest[..7] == "sha256:";
    assert forall i | 7 <= i < 71 :: digest[i] == repo[i - d];
    assert digest[d..] == repo[..71 - d];
    assert IsDigest(digest) && Clash(repo, digest);
  }

  // The ways in which a repository can clash.
  lemma ClashShapes(repo: string, digest: string)
    requires IsDigest(digest) && Clash(repo, digest)
    ensures repo == "" || Hex(repo[0]) || repo == "sha256" || repo == "ha256" ||
            exists d :: d in {0, 1, 6} && BeginsLikeDigest(repo, d)
  {
    if d :| 0 <= d <= 6 && digest[d..6] == repo {
      assert digest[d..6] == digest[..7][d..6];
      assert "sha256:"[0..6] == "sha256" && "sha256:"[1..6] == "ha256";
      if 2 <= d <= 5 {
        assert repo[0] == "sha256:"[d];
        HexInName(d);
      }
    } else {
      var d :| 0 <= d < 71 && digest[d..] <= repo;
      assert repo[..71 - d] == digest[d..];
      assert repo[0] == digest[d];
      if d >= 7 {
      } else if 2 <= d <= 5 {
        assert digest[d] == digest[..7][d];
        HexInName(d);
      } else {
        assert repo[..7 - d] == digest[d..7] == digest[..7][d..];
        assert forall i | 7 - d <= i < 71 - d :: repo[i] == digest[d + i];
        assert BeginsLikeDigest(repo, d);
      }
    }
  }

  lemma HexInName(d: nat)
    requires 2 <= d <= 5
    ensures Hex("sha256:"[d])
  {
  }

  lemma EmptyClashes(digest: string)
    requires IsDigest(digest)
    ensures Clash("", digest)
  {
    assert digest[6..6] == "";
  }

  const OPERATOR_REPO := "quay.io/samzhu/alibaba-cloud-csi-operator"
  const DOCKER_HUB_REPO := "docker.io/samzhu/alibaba-cloud-csi-operator"

  // This operator's repository is safe with every digest. The same one on docker.io is
  // not: with a digest that ends in 'd', some text is still tagged after pinning.
  lemma QuayIsSafeDockerHubIsNot(p: Pattern, digest: string)
    requires IsDigest(digest)
    ensures !Clash(OPERATOR_REPO, digest)
    ensures p.repo == DOCKER_HUB_REPO && digest[70] == 'd' ==>
              exists text: string :: TaggedAnywhere(p, Sub(p, Pinned(p, digest), text))
  {
    hide IsDigest, Clash, TaggedAnywhere, Sub;
    DigestLength(digest);
    assert OPERATOR_REPO[0] == 'q' && DOCKER_HUB_REPO[0] == 'd';
    OrdinaryRepoIsSafe(OPERATOR_REPO, digest);
    if p.repo == DOCKER_HUB_REPO && digest[70] == 'd' {
      LastCharacterClashes(p.repo, digest);
      ClashIsSeen(p, digest);
    }
  }
}
