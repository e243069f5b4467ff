/** One guard against a server of the worst kind. It may apply a request at any time after it was sent,
    early or late, and as often as it likes; a release reverses even a settlement. The one thing it
    leaves alone is a commit whose reply guarantees that nothing was changed. Which replies give that
    guarantee is a parameter. */
module WorstCase {
  import opened Basics
  import opened Mandates
  import opened Payloads
  import opened Lifecycle
  import opened GuardRuns

  /** What has become of the money: still held, settled, given back, or settled and given back. */
  datatype Fate = Held | Paid | GivenBack | Undone

  /** How many of its requests the guard has sent by now, and what has become of the money. */
  datatype Book = Book(sent: nat, fate: Fate)

  /** The guard sends its next request, or the server applies one that was sent. */
  datatype Move = Send | Apply(k: nat)

  function AfterApplying(fate: Fate, call: Call): Fate {
    match call
    case Reserve(_) => fate
    case Commit(_, _) => (match fate case Held => Paid case Paid => Paid case _ => Undone)
    case Release(_, _) => (match fate case Held => GivenBack case GivenBack => GivenBack case _ => Undone)
  }

  /** A commit is not applied if its reply guarantees that it was not. */
  predicate MayApply(call: Call, commitReply: Reply, inert: Reply -> bool) {
    !(call.Commit? && inert(commitReply))
  }

  function Next(calls: seq<Call>, commitReply: Reply, inert: Reply -> bool, book: Book, move: Move): Book {
    match move
    case Send => if book.sent < |calls| then book.(sent := book.sent + 1) else book
    case Apply(k) =>
      if k < book.sent && k < |calls| && MayApply(calls[k], commitReply, inert)
      then book.(fate := AfterApplying(book.fate, calls[k])) else book
  }

  function Play(calls: seq<Call>, commitReply: Reply, inert: Reply -> bool, moves: seq<Move>): Book {
    if |moves| == 0 then Book(0, Held)
    else Next(calls, commitReply, inert, Play(calls, commitReply, inert, moves[..|moves| - 1]), moves[|moves| - 1])
  }

  /** No interleaving of these calls with the server's moves settles the money and gives it back. */
  ghost predicate NeverUndone(calls: seq<Call>, commitReply: Reply, inert: Reply -> bool) {
    forall moves: seq<Move> :: !Play(calls, commitReply, inert, moves).fate.Undone?
  }

  // ---- which call sequences are safe ----

  predicate CanPay(calls: seq<Call>, commitReply: Reply, inert: Reply -> bool) {
    exists k :: 0 <= k < |calls| && calls[k].Commit? && MayApply(calls[k], commitReply, inert)
  }

  predicate CanGiveBack(calls: seq<Call>) {
    exists k :: 0 <= k < |calls| && calls[k].Release?
  }

  lemma {:induction false} FateIsPossible(calls: seq<Call>, commitReply: Reply, inert: Reply -> bool, moves: seq<Move>)
    ensures var fate := Play(calls, commitReply, inert, moves).fate;
      && (fate.Paid? || fate.Undone? ==> CanPay(calls, commitReply, inert))
      && (fate.GivenBack? || fate.Undone? ==> CanGiveBack(calls))
  {
    if |moves| > 0 {
      FateIsPossible(calls, commitReply, inert, moves[..|moves| - 1]);
    }
  }

  /** Calls are safe exactly if they do not hold a commit that may be applied beside a release. */
  lemma SafeCalls(calls: seq<Call>, commitReply: Reply, inert: Reply -> bool)
    ensures NeverUndone(calls, commitReply, inert) <==> !(CanPay(calls, commitReply, inert) && CanGiveBack(calls))
  {
    if CanPay(calls, commitReply, inert) && CanGiveBack(calls) {
      var i :| 0 <= i < |calls| && calls[i].Commit? && MayApply(calls[i], commitReply, inert);
      var j :| 0 <= j < |calls| && calls[j].Release?;
      BothApplied(calls, commitReply, inert, i, j);
    } else {
      forall moves: seq<Move> ensures !Play(calls, commitReply, inert, moves).fate.Undone? {
        FateIsPossible(calls, commitReply, inert, moves);
      }
    }
  }

  function SendAll(n: nat): seq<Move> {
    if n == 0 then [] else SendAll(n - 1) + [Send]
  }

  lemma {:induction false} AllSent(calls: seq<Call>, commitReply: Reply, inert: Reply -> bool, n: nat)
    requires n <= |calls|
    ensures Play(calls, commitReply, inert, SendAll(n)) == Book(n, Held)
  {
    if n > 0 {
      AllSent(calls, commitReply, inert, n - 1);
      assert SendAll(n)[..|SendAll(n)| - 1] == SendAll(n - 1);
    }
  }

  lemma PlayNext(calls: seq<Call>, commitReply: Reply, inert: Reply -> bool, moves: seq<Move>, move: Move)
    ensures Play(calls, commitReply, inert, moves + [move])
         == Next(calls, commitReply, inert, Play(calls, commitReply, inert, moves), move)
  {
    assert (moves + [move])[..|moves + [move]| - 1] == moves;
  }

  lemma BothApplied(calls: seq<Call>, commitReply: Reply, inert: Reply -> bool, i: nat, j: nat)
    requires i < |calls| && calls[i].Commit? && MayApply(calls[i], commitReply, inert)
    requires j < |calls| && calls[j].Release?
    ensures !NeverUndone(calls, commitReply, inert)
  {
    hide Play;
    var moves := SendAll(|calls|);
    AllSent(calls, commitReply, inert, |calls|);
    PlayNext(calls, commitReply, inert, moves, Apply(i));
    PlayNext(calls, commitReply, inert, moves + [Apply(i)], Apply(j));
    assert Play(calls, commitReply, inert, moves + [Apply(i)] + [Apply(j)]).fate.Undone?;
  }

  // ---- which uses of a guard are safe ----

  /** The use gets as far as a rejected commit, after which the guard releases. */
  ghost predicate ReleasesAfterRejection(p: Platform, c: Config, ops: seq<Op>, end: BodyEnd, replies: Replies) {
    && ReserveBodyOf(p, c).Ok? && Granted(c, replies.reserve)
    && end.Returned? && !Aborts(ops) && ReadsAsRejection(replies.commit)
  }

  lemma KindsDecide(calls: seq<Call>, commitReply: Reply, inert: Reply -> bool)
    ensures CanGiveBack(calls) <==> ReleaseKind in Kinds(calls)
    ensures CanPay(calls, commitReply, inert) <==> CommitKind in Kinds(calls) && !inert(commitReply)
  {
    if ReleaseKind in Kinds(calls) {
      var k :| 0 <= k < |calls| && Kinds(calls)[k] == ReleaseKind;
      assert calls[k].Release?;
    }
    if CommitKind in Kinds(calls) && !inert(commitReply) {
      var k :| 0 <= k < |calls| && Kinds(calls)[k] == CommitKind;
      assert calls[k].Commit? && MayApply(calls[k], commitReply, inert);
    }
    if CanGiveBack(calls) {
      var k :| 0 <= k < |calls| && calls[k].Release?;
      assert Kinds(calls)[k] == ReleaseKind;
    }
    if CanPay(calls, commitReply, inert) {
      var k :| 0 <= k < |calls| && calls[k].Commit? && MayApply(calls[k], commitReply, inert);
      assert Kinds(calls)[k] == CommitKind;
    }
  }

  lemma CommitAndRelease(p: Platform, c: Config, ops: seq<Op>, end: BodyEnd, replies: Replies)
    ensures var kinds := Kinds(RunOnce(p, c, ops, end, replies).calls);
      CommitKind in kinds && ReleaseKind in kinds <==> ReleasesAfterRejection(p, c, ops, end, replies)
  {
    hide RunOnce, ReadsAsRejection, ReserveBodyOf, Aborts;
    CallLanguage(p, c, ops, end, replies);
    assert CommitKind !in [ReserveKind] && CommitKind !in [ReserveKind, ReleaseKind];
    assert ReleaseKind !in [ReserveKind, CommitKind];
    var all := [ReserveKind, CommitKind, ReleaseKind];
    assert all[1] in all && all[2] in all;
  }

  /** One use of a guard is safe against the worst server exactly if it never comes to a release after
      a rejected commit, or if the rejection guarantees that the commit was not applied. */
  lemma SafeUse(p: Platform, c: Config, ops: seq<Op>, end: BodyEnd, replies: Replies, inert: Reply -> bool)
    ensures NeverUndone(RunOnce(p, c, ops, end, replies).calls, replies.commit, inert)
       <==> (ReleasesAfterRejection(p, c, ops, end, replies) ==> inert(replies.commit))
  {
    hide RunOnce, CanPay, CanGiveBack, ReleasesAfterRejection, Kinds, NeverUndone;
    var calls := RunOnce(p, c, ops, end, replies).calls;
    SafeCalls(calls, replies.commit, inert);
    KindsDecide(calls, replies.commit, inert);
    CommitAndRelease(p, c, ops, end, replies);
  }

  /** Every use of a guard with these arguments is safe, whatever the body does and the server replies. */
  ghost predicate AllUsesSafe(p: Platform, c: Config, inert: Reply -> bool) {
    forall ops: seq<Op>, end: BodyEnd, replies: Replies ::
      NeverUndone(RunOnce(p, c, ops, end, replies).calls, replies.commit, inert)
  }

  /** The guard never undoes a settlement, under exactly one condition on the server: that it has not
      applied a commit that it answers by a response which is no success, no transport failure, no server
      error and none of the three codes of a finished reservation. */
  lemma SafeIffRejectionsAreInert(p: Platform, c: Config, inert: Reply -> bool)
    requires ReserveBodyOf(p, c).Ok? && !c.dryRun
    ensures AllUsesSafe(p, c, inert) <==> forall reply: Reply :: ReadsAsRejection(reply) ==> inert(reply)
  {
    hide RunOnce, ReadsAsRejection, NeverUndone, ReserveBodyOf;
    if forall reply: Reply :: ReadsAsRejection(reply) ==> inert(reply) {
      forall ops: seq<Op>, end: BodyEnd, replies: Replies
        ensures NeverUndone(RunOnce(p, c, ops, end, replies).calls, replies.commit, inert)
      {
        SafeUse(p, c, ops, end, replies, inert);
      }
    } else {
      var reply: Reply :| ReadsAsRejection(reply) && !inert(reply);
      RejectionIsReached(p, c, reply, inert);
    }
  }

  lemma RejectionIsReached(p: Platform, c: Config, reply: Reply, inert: Reply -> bool)
    requires ReserveBodyOf(p, c).Ok? && !c.dryRun && ReadsAsRejection(reply) && !inert(reply)
    ensures !NeverUndone(RunOnce(p, c, [], Returned, PlainReplies(reply)).calls, reply, inert)
    ensures !AllUsesSafe(p, c, inert)
  {
    hide RunOnce, ReadsAsRejection, NeverUndone, ReserveBodyOf;
    SafeUse(p, c, [], Returned, PlainReplies(reply), inert);
    assert ReleasesAfterRejection(p, c, [], Returned, PlainReplies(reply));
  }

  // ---- the class the documentation names ----

  /** An explicit rejection as it is documented: a response in the 4xx range with a code other than the
      three terminal ones. */
  predicate DocumentedRejection(reply: Reply) {
    && reply.Responded?
    && !reply.response.isSuccess && !reply.response.isTransportError && !reply.response.isServerError
    && 400 <= reply.response.status < 500
    && Truthy(reply.response.code) && !TerminalCode(reply.response.code)
  }

  /** A rejection that the documentation does not speak of: a status in the 4xx range without any code,
      or any other status, no success and no server error, with none of the three terminal codes. */
  predicate UndocumentedRejection(reply: Reply) {
    && reply.Responded?
    && !reply.response.isSuccess && !reply.response.isTransportError && !reply.response.isServerError
    && if 400 <= reply.response.status < 500
       then reply.response.code == None || reply.response.code == Some("")
       else !TerminalCode(reply.response.code)
  }

  /** What the guard takes for an explicit rejection is one of the two, and never both. */
  lemma DocumentedClass(reply: Reply)
    ensures ReadsAsRejection(reply) <==> DocumentedRejection(reply) || UndocumentedRejection(reply)
    ensures !(DocumentedRejection(reply) && UndocumentedRejection(reply))
  {
    VerdictMeans(reply);
  }

  /** A server that guarantees no more than the documented class can lose a settlement: a response with
      status 408 and no code makes the guard release, although the commit may have been applied. One use
      is safe exactly if it does not release after such an undocumented rejection. */
  lemma DocumentedRuleIsNotEnough(p: Platform, c: Config)
    requires ReserveBodyOf(p, c).Ok? && !c.dryRun
    ensures !AllUsesSafe(p, c, DocumentedRejection)
    ensures var timeout := Responded(Response(false, false, false, 408, None, None));
      !NeverUndone(RunOnce(p, c, [], Returned, PlainReplies(timeout)).calls, timeout, DocumentedRejection)
  {
    hide RunOnce, NeverUndone, ReserveBodyOf;
    RejectionIsReached(p, c, Responded(Response(false, false, false, 408, None, None)), DocumentedRejection);
  }

  lemma SafeUnderDocumentedRule(p: Platform, c: Config, ops: seq<Op>, end: BodyEnd, replies: Replies)
    ensures NeverUndone(RunOnce(p, c, ops, end, replies).calls, replies.commit, DocumentedRejection)
       <==> !(ReserveBodyOf(p, c).Ok? && Granted(c, replies.reserve) && end.Returned? && !Aborts(ops)
              && UndocumentedRejection(replies.commit))
  {
    hide RunOnce, NeverUndone, ReserveBodyOf, ReadsAsRejection, Aborts, DocumentedRejection, UndocumentedRejection, Granted;
    SafeUse(p, c, ops, end, replies, DocumentedRejection);
    DocumentedClass(replies.commit);
  }
}
