/** Handing a backend's token to scpd and revoking the older ones (apps/stackd/src/wiring.ts), for the
    two backends whose tokens the controller mints. The digest of the endpoint facts is taken to be
    injective, so facts stand for their digest; random token suffixes are taken never to repeat. */
module Wiring {
  import opened Wrappers

  datatype Backend = ArgoCd | Gitea

  // `prefixed`: the name starts with `scp-stack-`, as every token minted here does.
  datatype Token = Token(account: string, prefixed: bool, id: nat)

  datatype Endpoint = Endpoint(serverUrl: string, selector: map<string, string>, port: nat)

  datatype Facts = Facts(serverUrl: string, account: Option<string>, instanceUid: Option<string>)

  /** What scpd holds. The controller is told the first two only. */
  datatype Held = Held(facts: Facts, rotation: nat, token: Token)

  /** A hand-off whose response was an error; in the controller's memory only. */
  datatype Pending = Pending(facts: Facts, rotation: nat, keep: Token)

  /** How a request to scpd ended. */
  datatype Outcome = Acknowledged | DoneButError | NotDone

  /** Everything one wiring step reads: the endpoint of the render, the backend's identity, the
      account as first read (for the comparison), as read again for minting, and the generation.
      Argo CD's account is the release's both times; Gitea's is read twice from its admin secret. */
  datatype Reads = Reads(
    endpoint: Endpoint, instanceUid: Option<string>, account: Option<string>, mintAccount: string, rotation: nat)
  {
    function Compared(): Facts { Facts(endpoint.serverUrl, account, instanceUid) }
    function HandedOver(): Facts { Facts(endpoint.serverUrl, Some(mintAccount), instanceUid) }
    predicate Steady() { account == Some(mintAccount) }
  }

  predicate Matches(scpd: Option<Held>, pending: Option<Pending>) {
    && scpd.Some? && pending.Some?
    && scpd.value.facts == pending.value.facts && scpd.value.rotation == pending.value.rotation
  }

  /** The guard after which nothing is minted. */
  predicate UpToDate(scpd: Option<Held>, facts: Facts, rotation: nat) {
    scpd.Some? && scpd.value.facts == facts && rotation <= scpd.value.rotation
  }

  /** The hand-off repeats, with another token, exactly what scpd already records. */
  predicate Repeats(scpd: Option<Held>, facts: Facts, rotation: nat) {
    scpd.Some? && scpd.value.facts == facts && scpd.value.rotation == rotation
  }

  predicate Revocable(backend: Backend, t: Token, account: string, keep: Option<Token>) {
    t.account == account && (backend.Gitea? ==> t.prefixed) && keep != Some(t)
  }

  function Kept(backend: Backend, live: set<Token>, account: string, keep: Option<Token>): set<Token> {
    set t | t in live && !Revocable(backend, t, account, keep)
  }

  /** The tokens left once a remembered hand-off that scpd turns out to hold has been acted on. */
  function AfterConfirm(backend: Backend, live: set<Token>, scpd: Option<Held>, pending: Option<Pending>): set<Token> {
    if Matches(scpd, pending)
    then Kept(backend, live, pending.value.keep.account, Some(pending.value.keep))
    else live
  }

  function StoredAs(scpd: Option<Held>, h: Held, outcome: Outcome): Option<Held> {
    if outcome.NotDone? then scpd else Some(h)
  }

  /** What keeps a later match from revoking the live token. */
  predicate MatchIsLive(scpd: Option<Held>, pending: Option<Pending>) {
    Matches(scpd, pending) ==> scpd.value.token == pending.value.keep
  }

  /** With one account read twice, minting is reached only for something scpd does not record yet. */
  lemma SteadyReadsNeverRepeat(scpd: Option<Held>, r: Reads)
    requires r.Steady() && !UpToDate(scpd, r.Compared(), r.rotation)
    ensures !Repeats(scpd, r.HandedOver(), r.rotation)
  {
  }

  /** An errored hand-off is safe to remember, stored or not, exactly when it does not repeat scpd's
      record (or hands over the very token scpd holds). */
  lemma ErroredHandOffIsSafe(scpd: Option<Held>, facts: Facts, rotation: nat, t: Token)
    ensures (forall o: Outcome ::
      MatchIsLive(StoredAs(scpd, Held(facts, rotation, t), o), Some(Pending(facts, rotation, t))))
       <==> (Repeats(scpd, facts, rotation) ==> scpd.value.token == t)
  {
    if Repeats(scpd, facts, rotation) && scpd.value.token != t {
      assert !MatchIsLive(StoredAs(scpd, Held(facts, rotation, t), NotDone), Some(Pending(facts, rotation, t)));
    }
  }

  /** When it does repeat it with a new token and is not stored, the next step takes the old record for
      the new hand-off and revokes the token scpd uses. With the two account reads apart this is
      reached: the first read differs from scpd's record, the second does not. */
  lemma RepeatedHandOffLosesToken(backend: Backend, live: set<Token>, held: Held, r: Reads, t: Token)
    requires held.facts == r.HandedOver() && held.rotation == r.rotation
    requires held.token != t && held.token.account == t.account == r.mintAccount && held.token.prefixed
    ensures UpToDate(Some(held), r.Compared(), r.rotation) <==> r.Steady()
    ensures var scpd := StoredAs(Some(held), Held(r.HandedOver(), r.rotation, t), NotDone);
            && Matches(scpd, Some(Pending(r.HandedOver(), r.rotation, t)))
            && scpd.value.token !in Kept(backend, live, r.mintAccount, Some(t))
  {
  }

  class Wires {
    const backend: Backend
    // the cluster, the backend and scpd
    var policy: Option<Endpoint>
    var live: set<Token>
    var scpd: Option<Held>
    // the controller's memory
    var pending: Option<Pending>
    var minted: nat
    // tokens the backend lost by itself: a reinstall, or an operator's deletion
    ghost var lost: set<Token>
    // no hand-off so far repeated scpd's record
    ghost var sound: bool

    ghost predicate Valid()
      reads this
    {
      && (scpd.Some? ==> policy.Some?)
      && (sound ==> MatchIsLive(scpd, pending) && TokenKept())
    }

    /** The token scpd holds has not been revoked. */
    ghost predicate TokenKept()
      reads `scpd, `live, `lost
    {
      scpd.Some? ==> scpd.value.token in live + lost
    }

    constructor (b: Backend)
      ensures Valid() && sound && backend == b && scpd.None? && live == {}
    {
      backend := b;
      policy, live, scpd, pending, minted, lost, sound := None, {}, None, None, 0, {}, true;
    }

    /** The tokens a Gitea admin made by hand are all still there. */
    ghost predicate NoOwnRevoked(before: set<Token>)
      reads `live
    {
      backend.Gitea? ==> forall t :: t in before && !t.prefixed ==> t in live
    }

    // ---- effects; each may fail --------------------------------------------------------------------

    method ApplyPolicy(ep: Endpoint) returns (ok: bool)
      modifies `policy
      ensures ok ==> policy == Some(ep)
      ensures policy == old(policy) || policy == Some(ep)
    {
      ok := *;
      var landed: bool := *;
      if ok || landed {
        policy := Some(ep);
      }
    }

    method DeletePolicy() returns (ok: bool)
      modifies `policy
      ensures ok ==> policy.None?
    {
      ok := *;
      var landed: bool := *;
      if ok || landed {
        policy := None;
      }
    }

    method PutWiring(body: Held, outcome: Outcome)
      modifies `scpd
      ensures scpd == StoredAs(old(scpd), body, outcome)
    {
      if outcome != NotDone {
        scpd := Some(body);
      }
    }

    method DeleteWiring(outcome: Outcome)
      modifies `scpd
      ensures scpd == if outcome.NotDone? then old(scpd) else None
    {
      if outcome != NotDone {
        scpd := None;
      }
    }

    /** A failed mint may leave a token nobody knows. */
    method Mint(account: string) returns (t: Option<Token>)
      modifies `live, `minted
      ensures minted == old(minted) + 1
      ensures old(live) <= live <= old(live) + {Token(account, true, old(minted))}
      ensures t.Some? ==> t.value == Token(account, true, old(minted)) && t.value in live
    {
      var token := Token(account, true, minted);
      minted := minted + 1;
      t := None;
      if * {
        live := live + {token};
        if * {
          t := Some(token);
        }
      }
    }

    method DeleteToken(t: Token) returns (ok: bool)
      modifies `live
      ensures live == old(live) || live == old(live) - {t}
      ensures ok ==> t !in live
    {
      ok := *;
      var landed: bool := *;
      if ok || landed {
        live := live - {t};
      }
    }

    /** Lists the account's tokens and deletes all but one, stopping at the first failure. */
    method RevokeOthers(account: string, keep: Option<Token>) returns (ok: bool)
      modifies `live
      ensures Kept(backend, old(live), account, keep) <= live <= old(live)
      ensures ok ==> live == Kept(backend, old(live), account, keep)
      // Another account's tokens, the one to keep and a Gitea admin's own are never touched; the rest goes.
      ensures forall t :: t in old(live) ==>
        t.account != account || Some(t) == keep || (backend.Gitea? && !t.prefixed) ==> t in live
      ensures ok ==> forall t :: t in live ==>
        t.account != account || Some(t) == keep || (backend.Gitea? && !t.prefixed)
    {
      ok := *; // the listing
      if !ok {
        return;
      }
      var listed := set t | t in live && t.account == account;
      while listed != {}
        invariant Kept(backend, old(live), account, keep) <= live <= old(live)
        invariant forall t :: t in live && Revocable(backend, t, account, keep) ==> t in listed
        decreases listed
      {
        var t :| t in listed;
        listed := listed - {t};
        if Revocable(backend, t, account, keep) {
          ok := DeleteToken(t);
          if !ok {
            return;
          }
        }
      }
      assert live == Kept(backend, old(live), account, keep);
    }

    // ---- wireBackend -------------------------------------------------------------------------------

    /** A hand-off that ended in an error got through after all: its token is the live one. */
    method Confirm() returns (ok: bool)
      requires Valid()
      modifies `pending, `live
      ensures Valid()
      ensures !Matches(scpd, old(pending)) ==> ok && pending == old(pending)
      ensures Matches(scpd, old(pending)) ==> pending.None?
      ensures AfterConfirm(backend, old(live), scpd, old(pending)) <= live <= old(live)
      ensures ok ==> live == AfterConfirm(backend, old(live), scpd, old(pending))
      ensures NoOwnRevoked(old(live))
      ensures ok && old(pending).Some? && scpd.Some? && scpd.value.facts == old(pending).value.facts
              && scpd.value.rotation == old(pending).value.rotation ==>
        forall t :: t in live && t.account == old(pending).value.keep.account && (backend.Gitea? ==> t.prefixed) ==>
          t == old(pending).value.keep
    {
      ok := true;
      if Matches(scpd, pending) {
        var keep := pending.value.keep;
        pending := None;
        ok := RevokeOthers(keep.account, Some(keep));
      }
    }

    /** Mint, hand over, and only then revoke. */
    method HandOver(r: Reads, outcome: Outcome) returns (ok: bool)
      requires Valid() && policy.Some?
      modifies `live, `minted, `scpd, `pending, `sound
      ensures Valid()
      ensures !Repeats(old(scpd), r.HandedOver(), r.rotation) ==> sound == old(sound)
      ensures sound ==> old(sound)
      ensures var t := Token(r.mintAccount, true, old(minted));
              && (scpd == old(scpd) || scpd == Some(Held(r.HandedOver(), r.rotation, t)))
              && (ok ==> scpd == Some(Held(r.HandedOver(), r.rotation, t)) && pending.None?)
              && (ok ==> live == Kept(backend, old(live) + {t}, r.mintAccount, Some(t)))
              && (pending == old(pending) ||
                  pending == if outcome.Acknowledged? then None else Some(Pending(r.HandedOver(), r.rotation, t)))
              && (scpd != old(scpd) && !outcome.Acknowledged? ==>
                pending == Some(Pending(r.HandedOver(), r.rotation, t)))
              && (!(old(live) <= live) ==> outcome.Acknowledged? && scpd == Some(Held(r.HandedOver(), r.rotation, t)))
              && live <= old(live) + {t}
      ensures NoOwnRevoked(old(live))
    {
      var t := Mint(r.mintAccount);
      if t.None? {
        return false;
      }
      if Repeats(scpd, r.HandedOver(), r.rotation) {
        sound := false;
      }
      PutWiring(Held(r.HandedOver(), r.rotation, t.value), outcome);
      if outcome != Acknowledged {
        pending := Some(Pending(r.HandedOver(), r.rotation, t.value));
        return false;
      }
      pending := None;
      assert live == old(live) + {t.value};
      ok := RevokeOthers(r.mintAccount, t);
    }

    /** The wiring step. It succeeds only with scpd holding what was read, for the generation asked
        for, and its network open to exactly the rendered endpoint. */
    method WireBackend(r: Reads, outcome: Outcome) returns (ok: bool)
      requires Valid()
      modifies `policy, `live, `minted, `scpd, `pending, `sound
      ensures Valid()
      ensures r.Steady() ==> sound == old(sound)
      ensures sound ==> old(sound)
      // Success: scpd has what was read, at the generation asked for or a later one.
      ensures ok ==>
        && scpd.Some? && scpd.value.rotation >= r.rotation
        && scpd.value.facts.serverUrl == r.endpoint.serverUrl && scpd.value.facts.instanceUid == r.instanceUid
        && (scpd.value.facts.account == r.account || scpd.value.facts.account == Some(r.mintAccount))
      // Nothing is minted for what scpd has already.
      ensures && old(scpd).Some? && old(scpd).value.facts == Facts(r.endpoint.serverUrl, r.account, r.instanceUid)
              && r.rotation <= old(scpd).value.rotation ==>
        scpd == old(scpd) && minted == old(minted)
      // Of an account whose interrupted hand-off scpd turned out to hold, no older token is left.
      ensures ok && old(pending).Some? && old(scpd).Some? && old(scpd).value.facts == old(pending).value.facts
              && old(scpd).value.rotation == old(pending).value.rotation ==>
        forall t :: t in live && t.account == old(pending).value.keep.account && (backend.Gitea? ==> t.prefixed) ==>
          t == old(pending).value.keep || t == Token(r.mintAccount, true, old(minted))
      ensures NoOwnRevoked(old(live))
      ensures scpd == old(scpd)
        || scpd == Some(Held(r.HandedOver(), r.rotation, Token(r.mintAccount, true, old(minted))))
      ensures UpToDate(old(scpd), r.Compared(), r.rotation) ==> scpd == old(scpd) && minted == old(minted)
      ensures ok && UpToDate(old(scpd), r.Compared(), r.rotation) ==>
        live == AfterConfirm(backend, old(live), old(scpd), old(pending))
      ensures ok ==> policy == Some(r.endpoint) && scpd.Some?
      ensures ok && !UpToDate(old(scpd), r.Compared(), r.rotation) ==>
        && scpd == Some(Held(r.HandedOver(), r.rotation, Token(r.mintAccount, true, old(minted))))
        && (forall t :: t in live ==> !Revocable(backend, t, r.mintAccount, Some(scpd.value.token)))
    {
      ok := ApplyPolicy(r.endpoint);
      if !ok {
        return;
      }
      ok := Confirm();
      if !ok || UpToDate(scpd, r.Compared(), r.rotation) {
        return;
      }
      if r.Steady() {
        SteadyReadsNeverRepeat(scpd, r);
      }
      ok := HandOver(r, outcome);
    }

    // ---- unwireBackend -----------------------------------------------------------------------------

    /** scpd first, then the network, then — best effort — the tokens. `account` is None when the
        backend cannot be asked any more. */
    method UnwireBackend(wasWired: bool, account: Option<string>, outcome: Outcome)
      returns (ok: bool, ghost fault: bool)
      requires Valid()
      modifies `policy, `live, `scpd
      ensures Valid()
      ensures NoOwnRevoked(old(live))
      ensures scpd == old(scpd) || scpd.None?
      ensures ok && wasWired && account.Some? && !fault ==>
        forall t :: t in live && t.account == account.value ==> backend.Gitea? && !t.prefixed
      ensures ok ==> scpd.None? && policy.None?
      ensures live <= old(live)
      ensures policy != old(policy) ==> scpd.None?
      ensures live != old(live) ==> scpd.None? && wasWired
    {
      fault := false;
      DeleteWiring(outcome);
      if outcome != Acknowledged {
        return false, false;
      }
      ok := DeletePolicy();
      if ok && wasWired && account.Some? {
        var revoked := RevokeOthers(account.value, None);
        fault := !revoked;
      }
    }

    // ---- whole runs --------------------------------------------------------------------------------

    method Restart()
      requires Valid()
      modifies `pending
      ensures Valid()
    {
      pending := None;
    }

    method Forget(ts: set<Token>)
      requires Valid()
      modifies `live, `lost
      ensures Valid()
      ensures live == old(live) - ts && lost == old(lost) + (old(live) * ts)
    {
      lost := lost + (live * ts);
      live := live - ts;
    }

    method Issue(account: string, prefixed: bool)
      requires Valid()
      modifies `live, `minted
      ensures Valid()
      ensures old(live) <= live
    {
      live := live + {Token(account, prefixed, minted)};
      minted := minted + 1;
    }

    method Take(s: Step) returns (ok: bool)
      requires Valid()
      modifies this
      ensures Valid()
      ensures (s.Wire? ==> s.seen.Steady()) ==> sound == old(sound)
      ensures !s.Forget? ==> lost == old(lost)
      ensures old(lost) <= lost
      ensures backend.Gitea? ==> forall t :: t in old(live) && !t.prefixed ==> t in live + lost
      ensures s.Wire? && ok ==> scpd.Some? && scpd.value.rotation >= s.seen.rotation
      ensures forall g: nat :: RotatedTo(old(scpd), g) && StaysAt(s, g) ==> RotatedTo(scpd, g)
    {
      ok := true;
      match s
      case Wire(r, o) => ok := WireBackend(r, o);
      case Unwire(w, a, o) =>
        ghost var fault;
        ok, fault := UnwireBackend(w, a, o);
      case Restart => Restart();
      case Forget(ts) => Forget(ts);
      case Issue(a, p) => Issue(a, p);
    }

    /** Over every run: scpd never holds a wiring whose network is closed, and — when each wiring step
        read one account — never a token the controller has revoked: it is live on the backend unless
        the backend itself lost it. A Gitea admin's own tokens are never revoked. Once a wiring step asked
        for a generation has succeeded, scpd is at that generation or a later one, until it is unwired or
        a step for an earlier one comes. */
    method Run(steps: seq<Step>) returns (oks: seq<bool>)
      requires Valid() && sound
      modifies this
      ensures scpd.Some? ==> policy.Some?
      ensures (forall s :: s in steps && s.Wire? ==> s.seen.Steady()) ==> TokenKept()
      ensures (forall s :: s in steps ==> !s.Forget? && (s.Wire? ==> s.seen.Steady())) && old(lost) == {} ==>
        (scpd.Some? ==> scpd.value.token in live)
      ensures backend.Gitea? ==> forall t :: t in old(live) && !t.prefixed ==> t in live + lost
      ensures |oks| == |steps| && RotationsKept(steps, oks, scpd)
    {
      oks := [];
      var i := 0;
      while i < |steps|
        invariant 0 <= i <= |steps| && |oks| == i
        invariant Valid()
        invariant (forall s :: s in steps && s.Wire? ==> s.seen.Steady()) ==> sound
        invariant (forall s :: s in steps ==> !s.Forget?) ==> lost == old(lost)
        invariant backend.Gitea? ==> forall t :: t in old(live) && !t.prefixed ==> t in live + lost
        invariant RotationsKept(steps[..i], oks, scpd)
      {
        assert steps[i] in steps;
        ghost var before := scpd;
        var ok := Take(steps[i]);
        RotationsStep(steps[..i], oks, before, steps[i], ok, scpd);
        assert steps[..i] + [steps[i]] == steps[..i + 1];
        oks := oks + [ok];
        i := i + 1;
      }
      assert steps[..i] == steps;
    }
  }

  predicate RotatedTo(scpd: Option<Held>, g: nat) {
    scpd.Some? && scpd.value.rotation >= g
  }

  /** Neither unwires nor asks for an earlier generation. */
  predicate StaysAt(s: Step, g: nat) {
    !s.Unwire? && (s.Wire? ==> s.seen.rotation >= g)
  }

  ghost predicate RotationsKept(steps: seq<Step>, oks: seq<bool>, scpd: Option<Held>)
    requires |oks| == |steps|
  {
    forall i :: 0 <= i < |steps| && steps[i].Wire? && oks[i] && AllStayAt(steps, i + 1, steps[i].seen.rotation) ==>
      RotatedTo(scpd, steps[i].seen.rotation)
  }

  predicate AllStayAt(steps: seq<Step>, i: nat, g: nat) {
    forall k :: i <= k < |steps| ==> StaysAt(steps[k], g)
  }

  lemma RotationsStep(steps: seq<Step>, oks: seq<bool>, before: Option<Held>, s: Step, ok: bool, after: Option<Held>)
    requires |oks| == |steps| && RotationsKept(steps, oks, before)
    requires s.Wire? && ok ==> RotatedTo(after, s.seen.rotation)
    requires forall g: nat :: RotatedTo(before, g) && StaysAt(s, g) ==> RotatedTo(after, g)
    ensures RotationsKept(steps + [s], oks + [ok], after)
  {
    hide RotatedTo, StaysAt;
    var all, oks' := steps + [s], oks + [ok];
    forall i | 0 <= i < |all| && all[i].Wire? && oks'[i] && AllStayAt(all, i + 1, all[i].seen.rotation)
      ensures RotatedTo(after, all[i].seen.rotation)
    {
      if i < |steps| {
        assert all[|steps|] == s && StaysAt(s, all[i].seen.rotation);
        assert forall k :: i < k < |steps| ==> steps[k] == all[k];
        assert AllStayAt(steps, i + 1, all[i].seen.rotation);
      }
    }
  }

  datatype Step =
    | Wire(seen: Reads, outcome: Outcome)
    | Unwire(wasWired: bool, account: Option<string>, deletion: Outcome)
    | Restart
    | Forget(tokens: set<Token>)
    | Issue(owner: string, prefixed: bool)
}
