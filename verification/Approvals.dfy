/** `PendingApproval` and the in-memory `ApprovalStore` of `comcmd/gateway/approvals.py`.

Clock readings and the random challenge are arguments. */
module Approvals {
  import opened Records

  type Challenge = nat

  /** The columns `open` is given. */
  datatype Terms = Terms(tier: Tier, required: string, quorum: int, eligible: set<string>)

  datatype PendingApproval = PendingApproval(
    digest: Digest, challenge: Challenge, terms: Terms, createdAt: real, ttl: real,
    approvers: set<string>, used: bool)
  {
    predicate IsExpired(now: real) {
      now - createdAt > ttl
    }

    predicate Satisfied() {
      |approvers| >= terms.quorum
    }

    predicate Open(now: real) {
      !used && !IsExpired(now)
    }
  }

  type ByDigest = map<Digest, PendingApproval>

  function Fresh(d: Digest, terms: Terms, ttl: real, now: real, challenge: Challenge): PendingApproval {
    PendingApproval(d, challenge, terms, now, ttl, {}, false)
  }

  predicate Reusable(rs: ByDigest, d: Digest, now: real) {
    d in rs && rs[d].Open(now)
  }

  function Opened(rs: ByDigest, d: Digest, terms: Terms, ttl: real, now: real, challenge: Challenge): ByDigest {
    if Reusable(rs, d, now) then rs else rs[d := Fresh(d, terms, ttl, now, challenge)]
  }

  function Approved(rs: ByDigest, d: Digest, principal: string): ByDigest {
    if d in rs then rs[d := rs[d].(approvers := rs[d].approvers + {principal})] else rs
  }

  function Retired(rs: ByDigest, d: Digest): ByDigest {
    if d in rs then rs[d := rs[d].(used := true)] else rs
  }

  function Pending(rs: ByDigest, now: real): set<PendingApproval> {
    set d | d in rs && rs[d].Open(now) :: rs[d]
  }

  class ApprovalStore {
    var byDigest: ByDigest

    constructor ()
      ensures byDigest == map[]
    {
      byDigest := map[];
    }

    method OpenRecord(d: Digest, terms: Terms, ttl: real, now: real, challenge: Challenge) returns (pa: PendingApproval)
      modifies this
      ensures byDigest == Opened(old(byDigest), d, terms, ttl, now, challenge)
      ensures d in byDigest && pa == byDigest[d] && pa.Open(now) == (ttl >= 0.0 || Reusable(old(byDigest), d, now))
    {
      if d in byDigest && !byDigest[d].IsExpired(now) && !byDigest[d].used {
        return byDigest[d];
      }
      pa := PendingApproval(d, challenge, terms, now, ttl, {}, false);
      byDigest := byDigest[d := pa];
    }

    method Get(d: Digest) returns (pa: Option<PendingApproval>)
      ensures pa == if d in byDigest then Some(byDigest[d]) else None
    {
      pa := if d in byDigest then Some(byDigest[d]) else None;
    }

    method AddApprover(d: Digest, principal: string) returns (pa: Option<PendingApproval>)
      modifies this
      ensures byDigest == Approved(old(byDigest), d, principal)
      ensures pa == if d in byDigest then Some(byDigest[d]) else None
    {
      if d in byDigest {
        byDigest := byDigest[d := byDigest[d].(approvers := byDigest[d].approvers + {principal})];
      }
      pa := Get(d);
    }

    method ListPending(now: real) returns (pending: set<PendingApproval>)
      ensures pending == Pending(byDigest, now)
    {
      pending := set d | d in byDigest && !byDigest[d].used && !byDigest[d].IsExpired(now) :: byDigest[d];
    }

    method Retire(d: Digest)
      modifies this
      ensures byDigest == Retired(old(byDigest), d)
    {
      if d in byDigest {
        byDigest := byDigest[d := byDigest[d].(used := true)];
      }
    }
  }
}
