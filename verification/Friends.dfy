/**
 Friend requests and the friends table. An accept, decline or cancel reads the request, checks it,
 and then writes by id alone, so that other steps may come between the check and the write.
 */
module Friends {
  import opened Keys
  import opened Wrappers

  type RequestId = nat

  datatype RequestState = Pending | Accepted | Declined | Canceled

  datatype Request = Request(sender: PublicKey, receiver: PublicKey, state: RequestState)
  {
    predicate Touches(key: PublicKey) {
      sender == key || receiver == key
    }

    predicate Between(u: PublicKey, v: PublicKey) {
      (sender == u && receiver == v) || (sender == v && receiver == u)
    }
  }

  type Edge = (PublicKey, PublicKey)

  datatype Tables = Tables(requests: map<RequestId, Request>, edges: set<Edge>)

  // What the client service answers with; Failed is a violated table constraint.
  datatype Error = InvalidPublicKey | NotFound | Forbidden | Conflict | Failed

  // ---- What the statements do

  function Checked(t: Tables, id: RequestId, actor: PublicKey): Result<Request, Error> {
    if id !in t.requests then Err(NotFound)
    else if !t.requests[id].Touches(actor) then Err(Forbidden)
    else if t.requests[id].state != Pending then Err(Conflict)
    else Ok(t.requests[id])
  }

  // What accept, decline and cancel answer.
  function Answer(t: Tables, id: RequestId, actor: PublicKey, target: RequestState): Result<Request, Error> {
    match Checked(t, id, actor)
    case Ok(request) => Ok(request.(state := target))
    case Err(error) => Err(error)
  }

  // Unknown, not a party, no longer pending, or moved on, in that order of tests.
  predicate AnswersAsPromised(requests: map<RequestId, Request>, id: RequestId, actor: PublicKey,
      target: RequestState, r: Result<Request, Error>)
  {
    if id !in requests then r == Err(NotFound)
    else if actor != requests[id].sender && actor != requests[id].receiver then r == Err(Forbidden)
    else if requests[id].state != Pending then r == Err(Conflict)
    else r == Ok(Request(requests[id].sender, requests[id].receiver, target))
  }

  function Pair(r: Request): set<Edge> {
    {(r.sender, r.receiver), (r.receiver, r.sender)}
  }

  // The write looks at the id only; accepting adds both edges.
  function Written(t: Tables, id: RequestId, target: RequestState): Tables {
    if id !in t.requests then t
    else
      var r := t.requests[id].(state := target);
      Tables(t.requests[id := r], if target == Accepted then t.edges + Pair(r) else t.edges)
  }

  function Unfriended(t: Tables, u: PublicKey, v: PublicKey): Tables {
    t.(edges := t.edges - {(u, v), (v, u)})
  }

  function AccountGone(t: Tables, key: PublicKey): Tables {
    Tables(map id | id in t.requests && !t.requests[id].Touches(key) :: t.requests[id],
           set e | e in t.edges && e.0 != key && e.1 != key)
  }

  // The self-join: an edge and its reverse.
  predicate Joined(t: Tables, u: PublicKey, v: PublicKey) {
    exists a, b :: a in t.edges && b in t.edges && b == (a.1, a.0) && a == (u, v)
  }

  class FriendStore {
    var requests: map<RequestId, Request>
    var edges: set<Edge>

    ghost function View(): Tables
      reads this
    {
      Tables(requests, edges)
    }

    constructor ()
      ensures View() == Tables(map[], {})
    {
      requests, edges := map[], {};
    }

    // Nothing keeps a user from asking themselves.
    method SendFriendRequest(user: PublicKey, receiver: PublicKey, id: RequestId) returns (r: Result<RequestId, Error>)
      modifies this
      ensures r == if |receiver| != KEY_SIZE then Err(InvalidPublicKey)
                   else if |user| != KEY_SIZE || id in old(requests) then Err(Failed) else Ok(id)
      ensures View() == if r.Ok? then old(View()).(requests := old(requests)[id := Request(user, receiver, Pending)])
                        else old(View())
    {
      if |receiver| != KEY_SIZE {
        return Err(InvalidPublicKey);
      }
      if |user| != KEY_SIZE || id in requests {
        return Err(Failed);
      }
      requests := requests[id := Request(user, receiver, Pending)];
      return Ok(id);
    }

    method GetFriendRequest(id: RequestId) returns (r: Result<Request, Error>)
      ensures r == if id in requests then Ok(requests[id]) else Err(NotFound)
    {
      if id !in requests {
        return Err(NotFound);
      }
      return Ok(requests[id]);
    }

    method UpdateFriendRequestState(id: RequestId, actor: PublicKey, target: RequestState)
        returns (r: Result<Request, Error>)
      modifies this`requests
      ensures r == Answer(old(View()), id, actor, target)
      ensures AnswersAsPromised(old(requests), id, actor, target, r)
      ensures requests == if r.Ok? then old(requests)[id := r.value] else old(requests)
    {
      var found := GetFriendRequest(id);
      if !found.Ok? {
        return found;
      }
      var record := found.value;
      if actor != record.sender && actor != record.receiver {
        return Err(Forbidden);
      }
      if record.state != Pending {
        return Err(Conflict);
      }
      requests := requests[id := requests[id].(state := target)];
      return Ok(requests[id]);
    }

    // ON CONFLICT DO NOTHING: an edge that is there stays.
    method CreateFriendPair(left: Edge, right: Edge)
      modifies this`edges
      ensures edges == old(edges) + {left, right}
    {
      var pair := [left, right];
      for i := 0 to |pair|
        invariant edges == old(edges) + set e | e in pair[..i]
      {
        if pair[i] !in edges {
          edges := edges + {pair[i]};
        }
      }
      assert pair[..|pair|] == pair && left == pair[0] && right == pair[1];
    }

    method AcceptFriendRequest(user: PublicKey, id: RequestId) returns (r: Result<Request, Error>)
      modifies this
      ensures r == Answer(old(View()), id, user, Accepted)
      ensures View() == if r.Ok? then Written(old(View()), id, Accepted) else old(View())
      ensures AnswersAsPromised(old(requests), id, user, Accepted, r)
      ensures requests == if r.Ok? then old(requests)[id := r.value] else old(requests)
      ensures r.Ok? ==> edges == old(edges) + {(r.value.sender, r.value.receiver), (r.value.receiver, r.value.sender)}
      ensures !r.Ok? ==> edges == old(edges)
    {
      r := UpdateFriendRequestState(id, user, Accepted);
      if r.Ok? {
        CreateFriendPair((r.value.sender, r.value.receiver), (r.value.receiver, r.value.sender));
      }
    }

    method DeclineFriendRequest(user: PublicKey, id: RequestId) returns (r: Result<Request, Error>)
      modifies this
      ensures r == Answer(old(View()), id, user, Declined)
      ensures View() == if r.Ok? then Written(old(View()), id, Declined) else old(View())
      ensures AnswersAsPromised(old(requests), id, user, Declined, r)
      ensures requests == (if r.Ok? then old(requests)[id := r.value] else old(requests)) && edges == old(edges)
    {
      r := UpdateFriendRequestState(id, user, Declined);
    }

    method CancelFriendRequest(user: PublicKey, id: RequestId) returns (r: Result<Request, Error>)
      modifies this
      ensures r == Answer(old(View()), id, user, Canceled)
      ensures View() == if r.Ok? then Written(old(View()), id, Canceled) else old(View())
      ensures AnswersAsPromised(old(requests), id, user, Canceled, r)
      ensures requests == (if r.Ok? then old(requests)[id := r.value] else old(requests)) && edges == old(edges)
    {
      r := UpdateFriendRequestState(id, user, Canceled);
    }

    method RemoveFriend(user: PublicKey, other: PublicKey)
      modifies this`edges
      ensures View() == Unfriended(old(View()), user, other)
      ensures edges == old(edges) - {(user, other), (other, user)} && requests == old(requests)
    {
      edges := set e | e in edges && !(e.0 == user && e.1 == other) && !(e.0 == other && e.1 == user);
    }

    method DeleteAccount(key: PublicKey)
      modifies this
      ensures View() == AccountGone(old(View()), key)
      ensures forall u, v :: (u, v) in edges <==> (u, v) in old(edges) && u != key && v != key
      ensures forall id :: id in requests <==>
                id in old(requests) && old(requests)[id].sender != key && old(requests)[id].receiver != key
      ensures forall id :: id in requests ==> requests[id] == old(requests)[id]
    {
      edges := set e | e in edges && !(e.0 == key || e.1 == key);
      requests := map id | id in requests && !(requests[id].sender == key || requests[id].receiver == key) :: requests[id];
    }

    method AreFriends(left: PublicKey, right: PublicKey) returns (friends: bool)
      ensures friends == Joined(View(), left, right)
      ensures friends <==> (left, right) in edges && (right, left) in edges
    {
      friends := exists a, b :: a in edges && b in edges && b.0 == a.1 && b.1 == a.0 && a.0 == left && a.1 == right;
    }
  }

  // ---- Runs

  datatype Step =
    | Send(id: RequestId, sender: PublicKey, receiver: PublicKey)
    | Check(id: RequestId, actor: PublicKey, target: RequestState)
    | Write(id: RequestId, target: RequestState)
    | Remove(user: PublicKey, other: PublicKey)
    | Delete(key: PublicKey)

  // Checks that passed and whose write is still to come; ids once given out.
  datatype World = World(t: Tables, checked: multiset<(RequestId, RequestState)>, born: set<RequestId>)

  predicate Enabled(w: World, st: Step) {
    match st
    case Send(id, sender, receiver) => |sender| == KEY_SIZE && |receiver| == KEY_SIZE && id !in w.born
    case Check(id, actor, target) => target != Pending && Checked(w.t, id, actor).Ok?
    case Write(id, target) => (id, target) in w.checked
    case Remove(_, _) => true
    case Delete(_) => true
  }

  function Next(w: World, st: Step): World {
    match st
    case Send(id, sender, receiver) =>
      World(w.t.(requests := w.t.requests[id := Request(sender, receiver, Pending)]), w.checked, w.born + {id})
    case Check(id, _, target) => w.(checked := w.checked + multiset{(id, target)})
    case Write(id, target) => w.(t := Written(w.t, id, target), checked := w.checked - multiset{(id, target)})
    case Remove(u, v) => w.(t := Unfriended(w.t, u, v))
    case Delete(key) => w.(t := AccountGone(w.t, key))
  }

  ghost predicate Run(steps: seq<Step>, ws: seq<World>) {
    && |ws| == |steps| + 1
    && ws[0] == World(Tables(map[], {}), multiset{}, {})
    && forall n :: 0 <= n < |steps| ==> Enabled(ws[n], steps[n]) && ws[n + 1] == Next(ws[n], steps[n])
  }

  ghost predicate Symmetric(t: Tables) {
    forall e :: e in t.edges ==> (e.1, e.0) in t.edges
  }

  ghost predicate Backs(t: Tables, id: RequestId, e: Edge) {
    id in t.requests && t.requests[id].state == Accepted && t.requests[id].Between(e.0, e.1)
  }

  ghost predicate Justified(t: Tables) {
    forall e :: e in t.edges ==> exists id :: Backs(t, id, e)
  }

  // Friendship is mutual in every reachable state, however checks and writes interleave.
  lemma {:induction false} EdgesStaySymmetric(steps: seq<Step>, ws: seq<World>, n: nat)
    requires Run(steps, ws) && n <= |steps|
    ensures Symmetric(ws[n].t)
  {
    if n > 0 {
      EdgesStaySymmetric(steps, ws, n - 1);
      assert ws[n] == Next(ws[n - 1], steps[n - 1]);
    }
  }

  // So in every reachable state the self-join is one lookup, whichever of the two asks.
  lemma AreFriendsIsOneLookup(steps: seq<Step>, ws: seq<World>, n: nat, u: PublicKey, v: PublicKey)
    requires Run(steps, ws) && n <= |steps|
    ensures Joined(ws[n].t, u, v) <==> (u, v) in ws[n].t.edges
    ensures Joined(ws[n].t, u, v) <==> Joined(ws[n].t, v, u)
  {
    EdgesStaySymmetric(steps, ws, n);
  }

  // The write takes an accepted request back while its edge has no other request to stand on.
  predicate TakesBack(t: Tables, id: RequestId, target: RequestState) {
    && id in t.requests && t.requests[id].state == Accepted && target != Accepted
    && (t.requests[id].sender, t.requests[id].receiver) in t.edges
    && forall other :: other in t.requests && other != id ==>
         !(t.requests[other].state == Accepted && t.requests[other].Between(t.requests[id].sender, t.requests[id].receiver))
  }

  // A late write breaks the tie between edges and accepted requests exactly when it takes one back.
  lemma WriteKeepsJustified(t: Tables, id: RequestId, target: RequestState)
    requires Symmetric(t) && Justified(t)
    ensures Justified(Written(t, id, target)) <==> !TakesBack(t, id, target)
  {
    var after := Written(t, id, target);
    if TakesBack(t, id, target) {
      var e := (t.requests[id].sender, t.requests[id].receiver);
      assert e in after.edges;
      forall other ensures !Backs(after, other, e) {
        assert other != id ==> (other in after.requests <==> other in t.requests);
      }
    } else if id in t.requests {
      forall e | e in after.edges ensures exists other :: Backs(after, other, e) {
        StaysBacked(t, id, target, e);
      }
    }
  }

  lemma StaysBacked(t: Tables, id: RequestId, target: RequestState, e: Edge)
    requires Symmetric(t) && Justified(t) && id in t.requests && !TakesBack(t, id, target)
    requires e in Written(t, id, target).edges
    ensures exists other :: Backs(Written(t, id, target), other, e)
  {
    var after, r := Written(t, id, target), t.requests[id];
    if target == Accepted && e in Pair(r) {
      assert Backs(after, id, e);
    } else {
      var other :| Backs(t, other, e);
      if other != id || target == Accepted {
        assert Backs(after, other, e);
      } else {
        assert (r.sender, r.receiver) in t.edges;
        var third :| third in t.requests && third != id && t.requests[third].state == Accepted
                     && t.requests[third].Between(r.sender, r.receiver);
        assert Backs(after, third, e);
      }
    }
  }

  // Every write still finds the request pending, or finds it gone.
  ghost predicate Undisturbed(steps: seq<Step>, ws: seq<World>)
    requires Run(steps, ws)
  {
    forall n :: 0 <= n < |steps| && steps[n].Write? && steps[n].id in ws[n].t.requests ==>
      ws[n].t.requests[steps[n].id].state == Pending
  }

  lemma StepKeepsCovered(w: World, st: Step)
    requires Enabled(w, st) && w.t.requests.Keys <= w.born
    ensures Next(w, st).t.requests.Keys <= Next(w, st).born
  {
  }

  lemma {:induction false} BornCoversRequests(steps: seq<Step>, ws: seq<World>, n: nat)
    requires Run(steps, ws) && n <= |steps|
    ensures ws[n].t.requests.Keys <= ws[n].born
  {
    hide Enabled, Next;
    if n > 0 {
      BornCoversRequests(steps, ws, n - 1);
      assert Enabled(ws[n - 1], steps[n - 1]) && ws[n] == Next(ws[n - 1], steps[n - 1]);
      StepKeepsCovered(ws[n - 1], steps[n - 1]);
    }
  }

  lemma StepKeepsJustified(w: World, st: Step)
    requires Enabled(w, st) && Symmetric(w.t) && Justified(w.t) && w.t.requests.Keys <= w.born
    ensures Justified(Next(w, st).t) <==> !(st.Write? && TakesBack(w.t, st.id, st.target))
  {
    if st.Write? {
      WriteKeepsJustified(w.t, st.id, st.target);
    } else {
      forall e | e in Next(w, st).t.edges ensures exists id :: Backs(Next(w, st).t, id, e) {
        var id :| Backs(w.t, id, e);
        assert Backs(Next(w, st).t, id, e);
      }
    }
  }

  // Over any run, every friendship always rests on an accepted request between the two exactly
  // when no write takes back the last one.
  lemma {:induction false} JustifiedExactly(steps: seq<Step>, ws: seq<World>, n: nat)
    requires Run(steps, ws) && n <= |steps|
    ensures (forall m :: 0 <= m <= n ==> Justified(ws[m].t)) <==>
            forall m :: 0 <= m < n && steps[m].Write? ==> !TakesBack(ws[m].t, steps[m].id, steps[m].target)
  {
    hide Justified, TakesBack;
    if n == 0 {
      NobodyIsJustified(ws[0].t);
    } else {
      var w, st := ws[n - 1], steps[n - 1];
      JustifiedExactly(steps, ws, n - 1);
      assert Enabled(w, st) && ws[n] == Next(w, st);
      if Justified(w.t) {
        EdgesStaySymmetric(steps, ws, n - 1);
        BornCoversRequests(steps, ws, n - 1);
        hide Enabled, Next, Symmetric;
        StepKeepsJustified(w, st);
      }
    }
  }

  lemma NobodyIsJustified(t: Tables)
    requires t.edges == {}
    ensures Justified(t)
  {
  }

  // So it is while every write finds its request pending.
  lemma FriendshipIsJustified(steps: seq<Step>, ws: seq<World>, n: nat)
    requires Run(steps, ws) && Undisturbed(steps, ws) && n <= |steps|
    ensures Justified(ws[n].t)
  {
    JustifiedExactly(steps, ws, n);
  }

  // And they do when every call checks and writes without a step in between.
  lemma UninterruptedCallsAreUndisturbed(steps: seq<Step>, ws: seq<World>)
    requires Run(steps, ws)
    requires forall n :: 0 <= n < |steps| && steps[n].Write? ==>
      n > 0 && steps[n - 1].Check? && steps[n - 1].id == steps[n].id && steps[n - 1].target == steps[n].target
    ensures Undisturbed(steps, ws)
  {
    forall n | 0 <= n < |steps| && steps[n].Write? && steps[n].id in ws[n].t.requests
      ensures ws[n].t.requests[steps[n].id].state == Pending
    {
      assert Enabled(ws[n - 1], steps[n - 1]) && ws[n] == Next(ws[n - 1], steps[n - 1]);
    }
  }

  // A party to the request has come and passed the test for this outcome.
  ghost predicate AskedFor(steps: seq<Step>, n: nat, id: RequestId, target: RequestState, r: Request) {
    exists m :: 0 <= m < n && m < |steps| && (steps[m] == Check(id, r.sender, target) || steps[m] == Check(id, r.receiver, target))
  }

  // What is checked and not yet written, and what has been settled, a party has asked for.
  ghost predicate AllAskedFor(steps: seq<Step>, w: World, n: nat) {
    && (forall id, target :: (id, target) in w.checked ==> id in w.born)
    && forall id :: id in w.t.requests ==>
         && (forall target :: (id, target) in w.checked ==> AskedFor(steps, n, id, target, w.t.requests[id]))
         && (w.t.requests[id].state != Pending ==> AskedFor(steps, n, id, w.t.requests[id].state, w.t.requests[id]))
  }

  lemma AskedForLater(steps: seq<Step>, n: nat, id: RequestId, target: RequestState, r: Request, r': Request)
    requires AskedFor(steps, n, id, target, r) && r'.sender == r.sender && r'.receiver == r.receiver
    ensures AskedFor(steps, n + 1, id, target, r')
  {
  }

  // What a step can do to one request, and to the checks of it.
  lemma StepOnRequest(w: World, st: Step, id: RequestId)
    requires Enabled(w, st) && w.t.requests.Keys <= w.born
    ensures var w' := Next(w, st);
            && w.born <= w'.born
            && (id in w'.t.requests && id !in w.t.requests ==> w'.t.requests[id].state == Pending && id !in w.born)
            && (id in w'.t.requests && id in w.t.requests ==>
                  && w'.t.requests[id].sender == w.t.requests[id].sender && w'.t.requests[id].receiver == w.t.requests[id].receiver
                  && (w'.t.requests[id].state == w.t.requests[id].state || (id, w'.t.requests[id].state) in w.checked))
  {
  }

  lemma StepOnChecks(w: World, st: Step, id: RequestId, target: RequestState)
    requires Enabled(w, st) && (id, target) in Next(w, st).checked && (id, target) !in w.checked
    ensures id in w.t.requests
    ensures st == Check(id, w.t.requests[id].sender, target) || st == Check(id, w.t.requests[id].receiver, target)
  {
  }

  lemma StepKeepsAsked(steps: seq<Step>, w: World, n: nat)
    requires n < |steps| && Enabled(w, steps[n]) && AllAskedFor(steps, w, n) && w.t.requests.Keys <= w.born
    ensures AllAskedFor(steps, Next(w, steps[n]), n + 1)
  {
    hide Enabled, Next, AskedFor;
    var w' := Next(w, steps[n]);
    forall id, target | (id, target) in w'.checked ensures id in w'.born {
      StepOnRequest(w, steps[n], id);
      if (id, target) !in w.checked {
        StepOnChecks(w, steps[n], id, target);
      }
    }
    forall id | id in w'.t.requests
      ensures forall target :: (id, target) in w'.checked ==> AskedFor(steps, n + 1, id, target, w'.t.requests[id])
      ensures w'.t.requests[id].state != Pending ==> AskedFor(steps, n + 1, id, w'.t.requests[id].state, w'.t.requests[id])
    {
      forall target | (id, target) in w'.checked ensures AskedFor(steps, n + 1, id, target, w'.t.requests[id]) {
        OneStaysAsked(steps, w, n, id, target);
      }
      if w'.t.requests[id].state != Pending {
        OneStaysAsked(steps, w, n, id, w'.t.requests[id].state);
      }
    }
  }

  lemma OneStaysAsked(steps: seq<Step>, w: World, n: nat, id: RequestId, target: RequestState)
    requires n < |steps| && Enabled(w, steps[n]) && AllAskedFor(steps, w, n) && w.t.requests.Keys <= w.born
    requires id in Next(w, steps[n]).t.requests
    requires (id, target) in Next(w, steps[n]).checked || (Next(w, steps[n]).t.requests[id].state == target && target != Pending)
    ensures AskedFor(steps, n + 1, id, target, Next(w, steps[n]).t.requests[id])
  {
    hide Enabled, Next;
    var r' := Next(w, steps[n]).t.requests[id];
    StepOnRequest(w, steps[n], id);
    if (id, target) in Next(w, steps[n]).checked && (id, target) !in w.checked {
      StepOnChecks(w, steps[n], id, target);
    } else {
      AskedForLater(steps, n, id, target, w.t.requests[id], r');
    }
  }

  lemma {:induction false} RunAsksForAll(steps: seq<Step>, ws: seq<World>, n: nat)
    requires Run(steps, ws) && n <= |steps|
    ensures AllAskedFor(steps, ws[n], n)
  {
    hide Enabled, Next;
    if n > 0 {
      RunAsksForAll(steps, ws, n - 1);
      BornCoversRequests(steps, ws, n - 1);
      assert Enabled(ws[n - 1], steps[n - 1]) && ws[n] == Next(ws[n - 1], steps[n - 1]);
      hide AllAskedFor;
      StepKeepsAsked(steps, ws[n - 1], n - 1);
    }
  }

  // Whatever state a request was moved to, its sender or its receiver had asked for that.
  lemma OnlyPartiesSettle(steps: seq<Step>, ws: seq<World>, n: nat, id: RequestId)
    requires Run(steps, ws) && n <= |steps| && id in ws[n].t.requests && ws[n].t.requests[id].state != Pending
    ensures var r := ws[n].t.requests[id];
            exists m :: 0 <= m < n && (steps[m] == Check(id, r.sender, r.state) || steps[m] == Check(id, r.receiver, r.state))
  {
    RunAsksForAll(steps, ws, n);
    var r := ws[n].t.requests[id];
    assert AskedFor(steps, n, id, r.state, r);
  }

  // A request that has left Pending keeps its state for good.
  ghost predicate SettledForGood(steps: seq<Step>, ws: seq<World>)
    requires Run(steps, ws)
  {
    forall i, j, id :: 0 <= i <= j < |ws| && id in ws[i].t.requests && id in ws[j].t.requests ==>
      ws[i].t.requests[id].state == Pending || ws[j].t.requests[id].state == ws[i].t.requests[id].state
  }

  // The write changes a state that is no longer Pending.
  ghost predicate Overwrites(w: World, st: Step) {
    && st.Write? && st.id in w.t.requests
    && w.t.requests[st.id].state != Pending && w.t.requests[st.id].state != st.target
  }

  // Requests leave Pending at most once, unless a write comes late with another answer; the two
  // always go together.
  lemma RequestsSettleOnce(steps: seq<Step>, ws: seq<World>)
    requires Run(steps, ws)
    ensures SettledForGood(steps, ws) <==> forall n :: 0 <= n < |steps| ==> !Overwrites(ws[n], steps[n])
  {
    forall n | 0 <= n < |steps| && Overwrites(ws[n], steps[n]) ensures !SettledForGood(steps, ws) {
      assert ws[n + 1] == Next(ws[n], steps[n]);
      assert ws[n + 1].t.requests[steps[n].id].state == steps[n].target;
    }
    if !SettledForGood(steps, ws) {
      var i, j, id :| 0 <= i <= j < |ws| && id in ws[i].t.requests && id in ws[j].t.requests
        && ws[i].t.requests[id].state != Pending && ws[j].t.requests[id].state != ws[i].t.requests[id].state;
      FindOverwrite(steps, ws, i, j, id);
    }
  }

  lemma {:induction false} GoneStaysGone(steps: seq<Step>, ws: seq<World>, i: nat, j: nat, id: RequestId)
    requires Run(steps, ws) && i <= j < |ws|
    requires id in ws[i].born && id !in ws[i].t.requests
    ensures id in ws[j].born && id !in ws[j].t.requests
  {
    if i < j {
      GoneStaysGone(steps, ws, i, j - 1, id);
      assert Enabled(ws[j - 1], steps[j - 1]) && ws[j] == Next(ws[j - 1], steps[j - 1]);
    }
  }

  lemma {:induction false} FindOverwrite(steps: seq<Step>, ws: seq<World>, i: nat, j: nat, id: RequestId)
    requires Run(steps, ws) && i <= j < |ws| && id in ws[i].t.requests && id in ws[j].t.requests
    requires ws[i].t.requests[id].state != Pending && ws[j].t.requests[id].state != ws[i].t.requests[id].state
    ensures exists n :: 0 <= n < |steps| && Overwrites(ws[n], steps[n])
    decreases j - i
  {
    var w, st := ws[i], steps[i];
    assert Enabled(w, st) && ws[i + 1] == Next(w, st);
    BornCoversRequests(steps, ws, i);
    if id !in ws[i + 1].t.requests {
      GoneStaysGone(steps, ws, i + 1, j, id);
      assert false;
    } else if ws[i + 1].t.requests[id].state == w.t.requests[id].state {
      FindOverwrite(steps, ws, i + 1, j, id);
    } else {
      assert Overwrites(w, st);
    }
  }

  // Accept and decline both pass their check, accept writes first: the two are friends by a
  // request that ends up declined.
  lemma LateDeclineOrphansAnEdge(u: PublicKey, v: PublicKey) returns (steps: seq<Step>, ws: seq<World>)
    requires |u| == KEY_SIZE && |v| == KEY_SIZE
    ensures Run(steps, ws) && !Justified(ws[|steps|].t) && !SettledForGood(steps, ws)
  {
    steps := [Send(0, u, v), Check(0, v, Accepted), Check(0, u, Declined), Write(0, Accepted), Write(0, Declined)];
    ws := LateDecline(u, v, steps);
    assert ws[5] == Next(ws[4], steps[4]);
    assert (u, v) in ws[5].t.edges;
    forall id ensures !Backs(ws[5].t, id, (u, v)) {
    }
    assert Overwrites(ws[4], steps[4]);
    RequestsSettleOnce(steps, ws);
  }

  lemma LateDecline(u: PublicKey, v: PublicKey, steps: seq<Step>) returns (ws: seq<World>)
    requires |u| == KEY_SIZE && |v| == KEY_SIZE
    requires steps == [Send(0, u, v), Check(0, v, Accepted), Check(0, u, Declined), Write(0, Accepted), Write(0, Declined)]
    ensures Run(steps, ws)
    ensures ws[4].t == Tables(map[0 := Request(u, v, Accepted)], {(u, v), (v, u)})
  {
    hide Written;
    var asked := Tables(map[0 := Request(u, v, Pending)], {});
    var accepted := Tables(map[0 := Request(u, v, Accepted)], {(u, v), (v, u)});
    var accept, decline := (0, Accepted), (0, Declined);
    WrittenOnce(u, v);
    ws := [World(Tables(map[], {}), multiset{}, {}),
           World(asked, multiset{}, {0}),
           World(asked, multiset{accept}, {0}),
           World(asked, multiset{accept, decline}, {0}),
           World(accepted, multiset{decline}, {0}),
           World(Written(accepted, 0, Declined), multiset{}, {0})];
    assert ws[1] == Next(ws[0], steps[0]);
    assert ws[2] == Next(ws[1], steps[1]);
    assert ws[3] == Next(ws[2], steps[2]);
    assert ws[4] == Next(ws[3], steps[3]);
    assert ws[5] == Next(ws[4], steps[4]);
  }

  lemma WrittenOnce(u: PublicKey, v: PublicKey)
    ensures Written(Tables(map[0 := Request(u, v, Pending)], {}), 0, Accepted)
            == Tables(map[0 := Request(u, v, Accepted)], {(u, v), (v, u)})
  {
  }
}
