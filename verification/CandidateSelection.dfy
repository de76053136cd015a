/** Choosing the device tree of the greatest kernel. */
module CandidateSelection {
  import opened Wrappers
  import opened KernelRank

  datatype Candidate = Candidate(abi: string, device: string, sha256: string)

  predicate CanonicalDigest(s: string) {
    |s| == 64 && forall i :: 0 <= i < |s| ==> '0' <= s[i] <= '9' || 'a' <= s[i] <= 'f'
  }

  predicate Competes(c: Candidate, device: string) {
    c.device == device && CanonicalDigest(c.sha256) && ParseKernelRank(c.abi).Some?
  }

  function RankOf(c: Candidate): Rank
    requires ParseKernelRank(c.abi).Some?
  {
    ParseKernelRank(c.abi).value
  }

  /** Two digests for one identity, or two identities of one rank. */
  predicate Conflict(c: Candidate, d: Candidate, device: string) {
    && Competes(c, device) && Competes(d, device)
    && ((c.abi == d.abi && c.sha256 != d.sha256) || (c.abi != d.abi && RankOf(c) == RankOf(d)))
  }

  ghost predicate Ambiguous(candidates: seq<Candidate>, device: string) {
    exists c, d :: c in candidates && d in candidates && Conflict(c, d, device)
  }

  datatype Choice = Conflicting | NoneFound | Chosen(candidate: Candidate)

  ghost predicate Best(candidates: seq<Candidate>, device: string, c: Candidate) {
    && c in candidates && Competes(c, device)
    && forall d :: d in candidates && Competes(d, device) && d != c ==> Greater(RankOf(c), RankOf(d))
  }

  /** What the choice is to be. */
  ghost predicate Decided(candidates: seq<Candidate>, device: string, choice: Choice) {
    match choice
    case Conflicting => Ambiguous(candidates, device)
    case NoneFound => forall c :: c in candidates ==> !Competes(c, device)
    case Chosen(c) => !Ambiguous(candidates, device) && Best(candidates, device, c)
  }

  method SelectDTBCandidate(candidates: seq<Candidate>, device: string) returns (choice: Choice)
    ensures Decided(candidates, device, choice)
  {
    hide ParseKernelRank, CanonicalDigest;
    choice := NoneFound;
    var identities: map<string, string> := map[];
    var ranks: map<Rank, string> := map[];
    for i := 0 to |candidates|
      invariant Recorded(candidates[..i], device, identities, ranks)
      invariant choice != Conflicting && Decided(candidates[..i], device, choice)
    {
      var c := candidates[i];
      assert candidates[..i + 1] == candidates[..i] + [c];
      if c.device != device || !CanonicalDigest(c.sha256) || ParseKernelRank(c.abi).None? {
        Ignored(candidates[..i], device, c, choice);
        continue;
      }
      var rank := RankOf(c);
      if c.abi in identities && identities[c.abi] != c.sha256 {
        Clash(candidates, device, Candidate(c.abi, device, identities[c.abi]), c);
        return Conflicting;
      }
      if rank in ranks && ranks[rank] != c.abi {
        Clash(candidates, device, Candidate(ranks[rank], device, identities[ranks[rank]]), c);
        return Conflicting;
      }
      Joins(candidates[..i], device, identities, ranks, c);
      Wins(candidates[..i], device, identities, ranks, c, choice);
      identities := identities[c.abi := c.sha256];
      ranks := ranks[rank := c.abi];
      var greater := true;
      if choice.Chosen? { greater := GreaterThan(rank, RankOf(choice.candidate)); }
      if greater { choice := Chosen(c); }
    }
    assert candidates[..|candidates|] == candidates;
  }

  /** The maps hold exactly the competing candidates seen so far. */
  ghost predicate Recorded(seen: seq<Candidate>, device: string, identities: map<string, string>, ranks: map<Rank,
          string>) {
    && (forall c ::
          c in seen && Competes(c, device) ==>
            c.abi in identities && identities[c.abi] == c.sha256 && RankOf(c) in ranks && ranks[RankOf(c)] == c.abi)
    && (forall abi ::
          abi in identities ==>
            Candidate(abi, device, identities[abi]) in seen &&
            Competes(Candidate(abi, device, identities[abi]), device))
    && (forall r :: r in ranks ==> ranks[r] in identities && ParseKernelRank(ranks[r]) == Some(r))
  }

  lemma Ignored(seen: seq<Candidate>, device: string, c: Candidate, choice: Choice)
    requires !Competes(c, device) && choice != Conflicting && Decided(seen, device, choice)
    ensures Decided(seen + [c], device, choice)
  {
    hide ParseKernelRank, CanonicalDigest;
  }

  lemma Clash(candidates: seq<Candidate>, device: string, c: Candidate, d: Candidate)
    requires c in candidates && d in candidates && Conflict(c, d, device)
    ensures Ambiguous(candidates, device)
  {
  }

  lemma Joins(seen: seq<Candidate>, device: string, identities: map<string, string>, ranks: map<Rank, string>,
          c: Candidate)
    requires Competes(c, device) && Recorded(seen, device, identities, ranks)
    requires c.abi in identities ==> identities[c.abi] == c.sha256
    requires RankOf(c) in ranks ==> ranks[RankOf(c)] == c.abi
    ensures Recorded(seen + [c], device, identities[c.abi := c.sha256], ranks[RankOf(c) := c.abi])
  {
    hide ParseKernelRank, CanonicalDigest;
  }

  lemma Wins(seen: seq<Candidate>, device: string, identities: map<string, string>, ranks: map<Rank, string>,
          c: Candidate, choice: Choice)
    requires Competes(c, device) && Recorded(seen, device, identities, ranks) && choice != Conflicting
    requires Decided(seen, device, choice)
    requires c.abi in identities ==> identities[c.abi] == c.sha256
    requires RankOf(c) in ranks ==> ranks[RankOf(c)] == c.abi
    ensures choice.NoneFound? || Greater(RankOf(c), RankOf(choice.candidate)) ==> Decided(seen + [c], device, Chosen(c))
    ensures choice.Chosen? && !Greater(RankOf(c), RankOf(choice.candidate)) ==> Decided(seen + [c], device, choice)
  {
    hide ParseKernelRank, CanonicalDigest;
    forall d | d in seen && Competes(d, device)
      ensures !Conflict(c, d, device) && !Conflict(d, c, device) && (RankOf(c) == RankOf(d) ==> c == d)
    {
    }
    hide Competes, Recorded;
    assert !Ambiguous(seen + [c], device);
  }

  // ---- the order of the candidates does not matter

  lemma GreaterIsStrict(a: Rank, b: Rank, c: Rank)
    ensures !(Greater(a, b) && Greater(b, a)) && (a == b || Greater(a, b) || Greater(b, a))
    ensures Greater(a, b) && Greater(b, c) ==> Greater(a, c)
  {
  }

  /** The outcome is determined: at most one choice meets the decision. */
  lemma OneOutcome(candidates: seq<Candidate>, device: string, a: Choice, b: Choice)
    requires Decided(candidates, device, a) && Decided(candidates, device, b)
    ensures a == b
  {
    if a.Chosen? && b.Chosen? {
      GreaterIsStrict(RankOf(a.candidate), RankOf(b.candidate), RankOf(a.candidate));
    }
  }

  lemma OrderDoesNotMatter(candidates: seq<Candidate>, others: seq<Candidate>, device: string, a: Choice, b: Choice)
    requires multiset(candidates) == multiset(others)
    requires Decided(candidates, device, a) && Decided(others, device, b)
    ensures a == b
  {
    hide Competes, Conflict;
    forall c ensures c in candidates <==> c in others {
      assert c in candidates <==> c in multiset(candidates);
      assert c in others <==> c in multiset(others);
    }
    assert Decided(candidates, device, b);
    OneOutcome(candidates, device, a, b);
  }

  /** A list without conflicts has no conflicts in any part of it, and the winner of a part
      does not outrank the winner of the whole. */
  lemma PartsAgree(candidates: seq<Candidate>, part: seq<Candidate>, device: string, whole: Choice, choice: Choice)
    requires forall c :: c in part ==> c in candidates
    requires Decided(candidates, device, whole) && Decided(part, device, choice) && whole != Conflicting
    ensures choice != Conflicting
    ensures choice.Chosen? ==>
              whole.Chosen? && (choice == whole || Greater(RankOf(whole.candidate), RankOf(choice.candidate)))
  {
    hide ParseKernelRank, CanonicalDigest;
  }

  /** An error is reported exactly when two competing candidates conflict. */
  lemma ErrorsAreConflicts(candidates: seq<Candidate>, device: string, choice: Choice)
    requires Decided(candidates, device, choice)
    ensures choice == Conflicting <==> Ambiguous(candidates, device)
  {
    hide ParseKernelRank, CanonicalDigest;
  }
}
