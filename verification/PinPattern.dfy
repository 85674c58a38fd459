/** The pattern of PinDigest with its characters written out, and the outcomes of a run. */
module PinPattern {
  import opened PinDigest

  predicate Letter(c: char) {
    'a' <= c <= 'z' || 'A' <= c <= 'Z'
  }

  predicate Digit(c: char) {
    '0' <= c <= '9'
  }

  // `[\w.\-]`, with the word characters beyond ASCII a parameter of the pattern.
  predicate TagChar(p: Pattern, c: char) {
    Letter(c) || Digit(c) || c in {'_', '.', '-'} || (c >= '\U{80}' && p.wide(c))
  }

  // `sha256:` and 64 lower-case hex digits.
  predicate Sha256(d: string) {
    |d| == 71
    && d[0] == 's' && d[1] == 'h' && d[2] == 'a' && d[3] == '2' && d[4] == '5' && d[5] == '6' && d[6] == ':'
    && forall i | 7 <= i < 71 :: Digit(d[i]) || d[i] in {'a', 'b', 'c', 'd', 'e', 'f'}
  }

  lemma TagIs(p: Pattern, c: char)
    ensures Tag(p, c) <==> TagChar(p, c)
  {
  }

  lemma DigestIs(d: string)
    ensures IsDigest(d) <==> Sha256(d)
  {
    if |d| == 71 {
      assert d[..7] == [d[0], d[1], d[2], d[3], d[4], d[5], d[6]];
      assert forall i | 7 <= i < 71 :: Hex(d[i]) <==> Digit(d[i]) || d[i] in {'a', 'b', 'c', 'd', 'e', 'f'};
    }
  }

  // ---- When the pattern matches, and how far ----

  // The repository, a colon and a tag of at least one character begin s.
  predicate TagForm(p: Pattern, s: string) {
    p.repo <= s && |s| > |p.repo| + 1 && s[|p.repo|] == ':' && TagChar(p, s[|p.repo| + 1])
  }

  // The repository, an at sign and a digest begin s.
  predicate DigestForm(p: Pattern, s: string) {
    p.repo <= s && |s| >= |p.repo| + 72 && s[|p.repo|] == '@' && Sha256(s[|p.repo| + 1..|p.repo| + 72])
  }

  lemma {:induction false} RunOfTag(p: Pattern, tag: string, rest: string)
    requires forall i | 0 <= i < |tag| :: TagChar(p, tag[i])
    requires rest == "" || !TagChar(p, rest[0])
    ensures TagRun(p, tag + rest) == |tag|
  {
    hide TagChar, Tag;
    if tag == "" {
      assert tag + rest == rest;
      if rest != "" {
        TagIs(p, rest[0]);
      }
    } else {
      TagIs(p, tag[0]);
      assert (tag + rest)[1..] == tag[1..] + rest;
      RunOfTag(p, tag[1..], rest);
    }
  }

  // The pattern matches exactly the two forms. A tag is matched as far as its characters go
  // and takes in no newline, space, quote, slash, at sign or colon; a digest is matched
  // whole.
  lemma MatchIs(p: Pattern, s: string)
    ensures MatchLen(p, s) > 0 <==> TagForm(p, s) || DigestForm(p, s)
    ensures DigestForm(p, s) ==> MatchLen(p, s) == |p.repo| + 72
    ensures TagForm(p, s) ==>
              && (forall i | |p.repo| < i < MatchLen(p, s) ::
                    TagChar(p, s[i]) && s[i] !in {'\n', '\r', '\t', ' ', '"', '\'', '/', '@', ':', ','})
              && (MatchLen(p, s) < |s| ==> !TagChar(p, s[MatchLen(p, s)]))
  {
    hide IsDigest, Sha256, Tag;
    var r := |p.repo|;
    if p.repo <= s {
      var rest := s[r..];
      if |rest| > 1 {
        TagIs(p, rest[1]);
        assert rest[1] == rest[1..][0];
        TagRunIsLongest(p, rest[1..]);
      }
      if |rest| >= 72 {
        DigestIs(rest[1..72]);
        assert rest[1..72] == s[r + 1..r + 72];
      }
      if TagForm(p, s) {
        forall i | r < i < MatchLen(p, s)
          ensures TagChar(p, s[i]) && s[i] !in {'\n', '\r', '\t', ' ', '"', '\'', '/', '@', ':', ','}
        {
          assert s[i] == rest[1..][i - r - 1];
          TagIs(p, s[i]);
        }
        if MatchLen(p, s) < |s| {
          assert s[MatchLen(p, s)] == rest[1..][TagRun(p, rest[1..])];
          TagIs(p, s[MatchLen(p, s)]);
        }
      }
    }
  }

  // ---- What becomes of a reference ----

  lemma {:induction false} GapIs(p: Pattern, s: string, n: nat)
    requires n < |s| && NoRefIn(p, s, n) && MatchLen(p, s[n..]) > 0
    ensures Gap(p, s) == n
    decreases n
  {
    hide MatchLen;
    assert s[0..] == s;
    if n > 0 {
      assert MatchLen(p, s[0..]) == 0;
      var t := s[1..];
      assert t[n - 1..] == s[n..];
      forall k | 0 <= k < n - 1
        ensures MatchLen(p, t[k..]) == 0
      {
        assert t[k..] == s[k + 1..];
      }
      GapIs(p, t, n - 1);
    }
  }

  // The text before the first reference is copied, the reference replaced, and the scan
  // goes on right behind it.
  lemma ReplacedAt(p: Pattern, pinned: string, before: string, ref: string, rest: string)
    requires ref != "" && MatchLen(p, ref + rest) == |ref| && NoRefIn(p, before + (ref + rest), |before|)
    ensures Sub(p, pinned, before + (ref + rest)) == before + (pinned + Sub(p, pinned, rest))
    ensures FindAll(p, before + (ref + rest)) == [ref] + FindAll(p, rest)
  {
    hide MatchLen, Sub, FindAll, Gap;
    var s := before + (ref + rest);
    assert s[|before|..] == ref + rest;
    GapIs(p, s, |before|);
    SubSplit(p, pinned, s);
    assert s[|before| + |ref|..] == rest;
    assert s[|before|..|before| + |ref|] == ref;
    assert s[..|before|] == before;
  }

  // A tagged reference is replaced whole: the repository, a colon and any non-empty run of
  // letters, digits, underscores, dots and dashes, up to the end of the text or to the first
  // other character, such as a newline, a quote or a space. What is before it is copied, and
  // the scan goes on from just that character.
  lemma TagIsReplaced(p: Pattern, digest: string, before: string, tag: string, rest: string)
    requires tag != "" && forall i | 0 <= i < |tag| :: TagChar(p, tag[i])
    requires rest == "" || !TagChar(p, rest[0])
    requires NoRefIn(p, before + ((p.repo + ":" + tag) + rest), |before|)
    ensures var pinned := p.repo + "@" + digest;
            Sub(p, pinned, before + ((p.repo + ":" + tag) + rest)) == before + (pinned + Sub(p, pinned, rest))
    ensures FindAll(p, before + ((p.repo + ":" + tag) + rest)) == [p.repo + ":" + tag] + FindAll(p, rest)
  {
    hide Sub, FindAll, NoRefIn, MatchLen;
    TagMatches(p, tag, rest);
    ReplacedAt(p, p.repo + "@" + digest, before, p.repo + ":" + tag, rest);
  }

  lemma TagMatches(p: Pattern, tag: string, rest: string)
    requires tag != "" && forall i | 0 <= i < |tag| :: TagChar(p, tag[i])
    requires rest == "" || !TagChar(p, rest[0])
    ensures var ref := p.repo + ":" + tag; MatchLen(p, ref + rest) == |ref|
  {
    hide TagChar, Tag, IsDigest;
    var s := p.repo + ":" + tag + rest;
    var r := |p.repo|;
    assert s[..r] == p.repo;
    var tail := s[r..];
    assert tail == ":" + tag + rest;
    assert tail[1..] == tag + rest;
    RunOfTag(p, tag, rest);
  }

  // So is a reference that was pinned already, to any digest.
  lemma DigestIsReplaced(p: Pattern, digest: string, before: string, was: string, rest: string)
    requires Sha256(was) && NoRefIn(p, before + ((p.repo + "@" + was) + rest), |before|)
    ensures var pinned := p.repo + "@" + digest;
            Sub(p, pinned, before + ((p.repo + "@" + was) + rest)) == before + (pinned + Sub(p, pinned, rest))
    ensures FindAll(p, before + ((p.repo + "@" + was) + rest)) == [p.repo + "@" + was] + FindAll(p, rest)
  {
    hide Sub, FindAll, NoRefIn, MatchLen, IsDigest;
    DigestIs(was);
    PinnedMatches(p, was, rest);
    ReplacedAt(p, p.repo + "@" + digest, before, p.repo + "@" + was, rest);
  }

  // ---- The outcomes of a run ----

  // A text is left as it is exactly when each of its references is the pinned one.
  lemma {:induction false} NoChangeMeansPinned(p: Pattern, digest: string, s: string)
    requires Sha256(digest)
    ensures var pinned := p.repo + "@" + digest;
            Sub(p, pinned, s) == s <==> forall ref | ref in FindAll(p, s) :: ref == pinned
    decreases |s|
  {
    hide MatchLen, Sha256;
    var pinned := p.repo + "@" + digest;
    if s != "" {
      var n := MatchLen(p, s);
      ScanStep(p, pinned, s);
      if n == 0 {
        NoChangeMeansPinned(p, digest, s[1..]);
        assert s == [s[0]] + s[1..];
      } else {
        NoChangeMeansPinned(p, digest, s[n..]);
        assert s == s[..n] + s[n..];
        AllCons(s[..n], FindAll(p, s[n..]), pinned);
        if Sub(p, pinned, s) == s {
          OnePinned(p, digest, s);
        }
      }
    }
  }

  lemma AllCons(first: string, rest: seq<string>, v: string)
    ensures (forall ref | ref in [first] + rest :: ref == v) <==> first == v && forall ref | ref in rest :: ref == v
  {
    assert first in [first] + rest;
    assert forall ref | ref in rest :: ref in [first] + rest;
  }

  // A match in place of which the pinned reference would be the same text is that reference.
  lemma OnePinned(p: Pattern, digest: string, s: string)
    requires Sha256(digest) && MatchLen(p, s) > 0
    requires var pinned := p.repo + "@" + digest; s == pinned + Sub(p, pinned, s[MatchLen(p, s)..])
    ensures s[..MatchLen(p, s)] == p.repo + "@" + digest
    ensures Sub(p, p.repo + "@" + digest, s[MatchLen(p, s)..]) == s[MatchLen(p, s)..]
  {
    hide MatchLen, Sub, IsDigest;
    DigestIs(digest);
    PinnedMatches(p, digest, Sub(p, p.repo + "@" + digest, s[MatchLen(p, s)..]));
  }

  // What a run does, from its arguments and the text: a bad digest is refused, a text in
  // which the pattern matches nowhere is an error, a text with only pinned references is
  // left alone, and any other is rewritten; the count is that of all references.
  lemma RunIsExact(p: Pattern, digest: string, text: string)
    ensures var pinned := p.repo + "@" + digest;
            var refs := FindAll(p, text);
            var nowhere := forall k | 0 <= k < |text| :: !TagForm(p, text[k..]) && !DigestForm(p, text[k..]);
            Run(p, digest, text) ==
            if !Sha256(digest) then BadDigest
            else if nowhere then NoReference
            else if forall ref | ref in refs :: ref == pinned then Unchanged(|refs|)
            else Rewritten(Sub(p, pinned, text), |refs|)
  {
    hide MatchLen, Sub, FindAll, IsDigest, Sha256, TagForm, DigestForm;
    DigestIs(digest);
    NotFoundMeansNowhere(p, text);
    forall k | 0 <= k < |text|
      ensures MatchLen(p, text[k..]) == 0 <==> !TagForm(p, text[k..]) && !DigestForm(p, text[k..])
    {
      MatchIs(p, text[k..]);
    }
    if Sha256(digest) {
      NoChangeMeansPinned(p, digest, text);
    }
  }
}
