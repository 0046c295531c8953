/** Signed action tokens and the owner links that carry them. */
module Tokens {
  import opened Wrappers
  import opened Domain
  import opened Base64Url
  import Life = Lifecycle
  import Replay = LifecycleReplay

  datatype ActionToken = ActionToken(
    requestId: string,
    gate: Gate,
    decision: OwnerDecision,
    expiresAt: int,
    intent: Option<Intent>,
    revisionNo: nat)

  datatype TokenError = Invalid | Expired | Undecodable

  /** The keyed signature, the token's JSON form, and the lifetime of a link. */
  datatype Signer = Signer(
    sign: string -> string,
    dump: ActionToken -> Bytes,
    load: Bytes -> Option<ActionToken>,
    ttl: int)

  /** What the libraries owe: signatures without dots (they are hex), and JSON that reads back. */
  ghost predicate Sound(s: Signer) {
    && (forall p :: '.' !in s.sign(p))
    && (forall t :: s.load(s.dump(t)) == Some(t))
  }

  function Payload(s: Signer, t: ActionToken): string {
    Strip(Encode(s.dump(t)))
  }

  function Issue(s: Signer, t: ActionToken, now: int): string {
    var payload := Payload(s, t.(expiresAt := now + s.ttl));
    payload + "." + s.sign(payload)
  }

  function Split(raw: string): (parts: seq<string>)
    ensures |parts| > 0
  {
    if raw == "" then [""]
    else
      var rest := Split(raw[1..]);
      if raw[0] == '.' then [""] + rest else [[raw[0]] + rest[0]] + rest[1..]
  }

  function Verify(s: Signer, raw: string, now: int): Result<ActionToken, TokenError> {
    var parts := Split(raw);
    if |parts| != 2 || s.sign(parts[0]) != parts[1] then Failure(Invalid) else
      var bytes := Decode(Repad(parts[0]));
      if bytes.None? then Failure(Undecodable) else
        var token := s.load(bytes.value);
        if token.None? then Failure(Undecodable)
        else if now >= token.value.expiresAt then Failure(Expired)
        else Success(token.value)
  }

  lemma {:induction false} SplitNoDot(a: string)
    requires '.' !in a
    ensures Split(a) == [a]
  {
    if a != "" {
      assert a[0] in a;
      SplitNoDot(a[1..]);
      assert [a[0]] + a[1..] == a;
    }
  }

  /** Two dot-free parts joined by a dot split into those two. */
  lemma {:induction false} SplitJoin(a: string, b: string)
    requires '.' !in a && '.' !in b
    ensures Split(a + "." + b) == [a, b]
  {
    var raw := a + "." + b;
    if a == "" {
      assert raw[1..] == b;
      SplitNoDot(b);
    } else {
      assert raw[0] == a[0] && a[0] in a && raw[1..] == a[1..] + "." + b;
      SplitJoin(a[1..], b);
      assert [a[0]] + a[1..] == a;
    }
  }

  lemma {:induction false} SplitParts(raw: string)
    ensures |Split(raw)| == 1 ==> raw == Split(raw)[0] && '.' !in raw
    ensures |Split(raw)| == 2 ==>
              raw == Split(raw)[0] + "." + Split(raw)[1] && '.' !in Split(raw)[0] && '.' !in Split(raw)[1]
  {
    if raw != "" {
      SplitParts(raw[1..]);
      assert raw == [raw[0]] + raw[1..];
    }
  }

  /** A link that was issued verifies to its token until the end of its lifetime, and from then on is expired. */
  lemma VerifyIssued(s: Signer, t: ActionToken, now: int, later: int)
    requires Sound(s)
    ensures Verify(s, Issue(s, t, now), later) ==
            if later < now + s.ttl then Success(t.(expiresAt := now + s.ttl)) else Failure(Expired)
  {
    hide Decode, Repad, Strip, Encode, Split;
    var token := t.(expiresAt := now + s.ttl);
    var payload := Payload(s, token);
    RepadStrip(s.dump(token));
    UnpaddedRoundTrip(s.dump(token));
    SplitJoin(payload, s.sign(payload));
  }

  /** A string is accepted exactly when it is a signed, decodable payload that has not expired. */
  lemma VerifyAcceptsIff(s: Signer, raw: string, now: int, t: ActionToken)
    requires Sound(s)
    ensures Verify(s, raw, now) == Success(t) <==>
            exists p :: raw == p + "." + s.sign(p) && '.' !in p &&
              Decode(Repad(p)).Some? && s.load(Decode(Repad(p)).value) == Some(t) && now < t.expiresAt
  {
    SplitParts(raw);
    forall p | raw == p + "." + s.sign(p) && '.' !in p ensures Split(raw) == [p, s.sign(p)] {
      SplitJoin(p, s.sign(p));
    }
  }

  /** An issued link is an unpadded payload, a dot, and the payload's signature. */
  lemma IssuedShape(s: Signer, t: ActionToken, now: int)
    ensures exists p :: Issue(s, t, now) == p + "." + s.sign(p) && '=' !in p && '.' !in p
              && Decode(Repad(p)) == Some(s.dump(t.(expiresAt := now + s.ttl)))
  {
    hide Decode, Repad, Strip, Encode;
    var token := t.(expiresAt := now + s.ttl);
    RepadStrip(s.dump(token));
    UnpaddedRoundTrip(s.dump(token));
  }

  /** Different tokens issued at the same time are different links, so their clicks have different ids. */
  lemma IssueInjective(s: Signer, t1: ActionToken, t2: ActionToken, now: int)
    requires Sound(s) && s.ttl > 0 && Issue(s, t1, now) == Issue(s, t2, now)
    ensures t1.(expiresAt := 0) == t2.(expiresAt := 0)
  {
    VerifyIssued(s, t1, now, now);
    VerifyIssued(s, t2, now, now);
  }

  // ---- owner links ----

  function ClassificationToken(requestId: string, decision: OwnerDecision, intent: Option<Intent>): ActionToken {
    ActionToken(requestId, Classification, decision, 0, intent, 0)
  }

  /** Confirm, correct to a quote, correct to an execution plan, reject. */
  function ClassificationLinks(s: Signer, requestId: string, now: int): seq<string> {
    [Issue(s, ClassificationToken(requestId, Confirm, None), now),
     Issue(s, ClassificationToken(requestId, Correct, Some(Quote)), now),
     Issue(s, ClassificationToken(requestId, Correct, Some(ExecutionPlan)), now),
     Issue(s, ClassificationToken(requestId, Reject, None), now)]
  }

  function ApprovalLinks(s: Signer, requestId: string, revisionNo: nat, now: int): seq<string> {
    [Issue(s, ActionToken(requestId, Approval, Approve, 0, None, revisionNo), now),
     Issue(s, ActionToken(requestId, Approval, Revise, 0, None, revisionNo), now)]
  }

  /** A clicked link as an owner action; the feedback is not signed, the id is a hash of the link. */
  function ResolveAction(s: Signer, hash: string -> string, raw: string, now: int, feedback: Option<string>)
    : Result<OwnerAction, TokenError>
  {
    var token :- Verify(s, raw, now);
    Success(OwnerAction(token.requestId, token.gate, token.decision, hash(raw), token.intent, token.revisionNo, feedback))
  }

  /** What a link does when it is clicked at `later`. */
  ghost predicate Clicks(s: Signer, hash: string -> string, raw: string, now: int, later: int, feedback: Option<string>,
                         requestId: string, gate: Gate, decision: OwnerDecision, intent: Option<Intent>, revisionNo: nat)
  {
    ResolveAction(s, hash, raw, later, feedback) ==
    if later < now + s.ttl
    then Success(OwnerAction(requestId, gate, decision, hash(raw), intent, revisionNo, feedback))
    else Failure(Expired)
  }

  lemma IssuedClicks(s: Signer, hash: string -> string, t: ActionToken, now: int, later: int, feedback: Option<string>)
    requires Sound(s)
    ensures Clicks(s, hash, Issue(s, t, now), now, later, feedback, t.requestId, t.gate, t.decision, t.intent, t.revisionNo)
  {
    hide Issue, Verify;
    VerifyIssued(s, t, now, later);
  }

  /** The first notification's four links confirm, correct to a quote, correct to an execution plan and
      reject; the second's two approve and ask to revise that revision.  Each names its request and gate
      and carries the feedback typed with the click. */
  lemma LinksMean(s: Signer, hash: string -> string, id: string, n: nat, now: int, later: int, feedback: Option<string>)
    requires Sound(s)
    ensures var links := ClassificationLinks(s, id, now);
            && |links| == 4
            && Clicks(s, hash, links[0], now, later, feedback, id, Classification, Confirm, None, 0)
            && Clicks(s, hash, links[1], now, later, feedback, id, Classification, Correct, Some(Quote), 0)
            && Clicks(s, hash, links[2], now, later, feedback, id, Classification, Correct, Some(ExecutionPlan), 0)
            && Clicks(s, hash, links[3], now, later, feedback, id, Classification, Reject, None, 0)
    ensures var links := ApprovalLinks(s, id, n, now);
            && |links| == 2
            && Clicks(s, hash, links[0], now, later, feedback, id, Approval, Approve, None, n)
            && Clicks(s, hash, links[1], now, later, feedback, id, Approval, Revise, None, n)
  {
    hide Issue, Clicks;
    forall t ensures Clicks(s, hash, Issue(s, t, now), now, later, feedback, t.requestId, t.gate, t.decision, t.intent, t.revisionNo) {
      IssuedClicks(s, hash, t, now, later, feedback);
    }
  }

  /** Every link sent for a request resolves, while it lives, to an action on that request whose
      correction, if it is one, names a kind of document. */
  lemma LinksAreIssued(s: Signer, hash: string -> string, requestId: string, revisionNo: nat, now: int,
                       raw: string, later: int, feedback: Option<string>)
    requires Sound(s)
    ensures raw in ClassificationLinks(s, requestId, now) || raw in ApprovalLinks(s, requestId, revisionNo, now) ==>
            var action := ResolveAction(s, hash, raw, later, feedback);
            && (action.Success? <==> later < now + s.ttl)
            && (action.Success? ==>
                  && action.value.requestId == requestId
                  && action.value.actionId == hash(raw)
                  && forall at, outcome :: Replay.Issued([Life.Act(action.value, at, outcome)]))
  {
    hide Issue, Verify;
    forall t: ActionToken
      ensures Verify(s, Issue(s, t, now), later) ==
              if later < now + s.ttl then Success(t.(expiresAt := now + s.ttl)) else Failure(Expired)
    {
      VerifyIssued(s, t, now, later);
    }
  }
}
