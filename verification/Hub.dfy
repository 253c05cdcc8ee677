/** The two loops of the hub that the deployment protocol takes as single steps: collecting the ready
    sessions and waiting for their acknowledgements (internal/control/hub.go:152-202). */
module Hub {
  import opened Model
  import opened Wire
  import opened Deployment

  /** Each registered session belongs to the gateway it is registered under. */
  ghost predicate Registered(st: State) {
    forall g :: g in st.hub ==> st.hub[g] < |st.sessions| && st.sessions[st.hub[g]].gateway == g
  }

  lemma StepKeepsRegistered(st: State, l: Label)
    requires Registered(st) && Enabled(st, l)
    ensures Registered(Step(st, l))
  {
    SessionsKeepGateways(st, l);
    HubOfStep(st, l);
  }

  lemma SessionsKeepGateways(st: State, l: Label)
    requires Enabled(st, l)
    ensures var st' := Step(st, l);
            forall s :: 0 <= s < |st.sessions| ==>
                s < |st'.sessions| && st'.sessions[s].gateway == st.sessions[s].gateway
  {
  }

  lemma HubOfStep(st: State, l: Label)
    requires Enabled(st, l)
    ensures var hub := Step(st, l).hub;
            forall g :: g in hub ==> (g in st.hub && hub[g] == st.hub[g])
                                     || (l == Connect(g) && hub[g] == |st.sessions|
                                         && |Step(st, l).sessions| == |st.sessions| + 1
                                         && Step(st, l).sessions[|st.sessions|].gateway == g)
  {
  }

  lemma {:induction false} RunKeepsRegistered(states: seq<State>, labels: seq<Label>, n: nat)
    requires IsRun(states, labels) && n <= |labels|
    ensures Registered(states[n])
    decreases n
  {
    if n > 0 {
      RunKeepsRegistered(states, labels, n - 1);
      RunMoves(states, labels, n - 1);
      StepKeepsRegistered(states[n - 1], labels[n - 1]);
    }
  }

  /** readySessions answers with each ready registered session once, and with nothing else. */
  method ReadySessions(st: State) returns (out: seq<SessionId>)
    requires Registered(st)
    ensures IsReadyList(st, out)
  {
    out := [];
    var rest := st.hub.Keys;
    while rest != {}
      invariant rest <= st.hub.Keys
      invariant forall i :: 0 <= i < |out| ==>
                  out[i] < |st.sessions| && st.sessions[out[i]].ready && st.sessions[out[i]].gateway !in rest
                  && st.sessions[out[i]].gateway in st.hub && st.hub[st.sessions[out[i]].gateway] == out[i]
      invariant NoDuplicates(out)
      invariant forall g :: g in st.hub && g !in rest && st.sessions[st.hub[g]].ready ==> st.hub[g] in out
    {
      var g := Pick(rest);
      if st.sessions[st.hub[g]].ready {
        out := out + [st.hub[g]];
      }
      rest := rest - {g};
    }
  }

  /** What one session delivers while the hub waits for it: acknowledgements in order, and then nothing
      more before the deadline, a cancelled request or a closed session ends the wait. */
  type Delivery = seq<Ack>

  /** The first acknowledgement of the request, if one arrives. */
  function Answer(acks: Delivery, req: RequestId): Option<Ack> {
    if acks == [] then None else if acks[0].req == req then Some(acks[0]) else Answer(acks[1..], req)
  }

  /** The acknowledgements left over once the answer has been taken. */
  function AfterAnswer(acks: Delivery, req: RequestId): Delivery {
    if acks == [] then [] else if acks[0].req == req then acks[1..] else AfterAnswer(acks[1..], req)
  }

  /** broadcastAndWait reports success exactly when there is a session, the frame reached every one of
      them, and the first answer of each carries no error; it then has taken from every session what came
      up to and including its answer, and no more. */
  method BroadcastAndWait(req: RequestId, sessions: seq<Delivery>, accepted: nat)
      returns (ok: bool, left: seq<Delivery>)
    requires accepted <= |sessions|
    ensures ok <==> sessions != [] && accepted == |sessions|
                    && forall s :: 0 <= s < |sessions| ==> Answer(sessions[s], req) == Some(Ack(req, true))
    ensures |left| == |sessions|
    ensures ok ==> forall s :: 0 <= s < |sessions| ==> left[s] == AfterAnswer(sessions[s], req)
    ensures ok <==> sessions != [] && accepted == |sessions|
                    && forall s :: 0 <= s < |sessions| ==> Accepts(sessions[s], req)
    ensures ok ==> forall s, k :: 0 <= s < |sessions| && AnsweredAt(sessions[s], k, req) ==>
              left[s] == sessions[s][k + 1..]
  {
    ok, left := CollectAnswers(req, sessions, accepted);
    forall s | 0 <= s < |sessions|
      ensures Answer(sessions[s], req) == Some(Ack(req, true)) <==> Accepts(sessions[s], req)
      ensures forall k :: AnsweredAt(sessions[s], k, req) ==> AfterAnswer(sessions[s], req) == sessions[s][k + 1..]
    {
      AnswerMeans(sessions[s], req);
    }
  }

  /** The first acknowledgement of the request is number `k`, and it carries no error. */
  ghost predicate AnsweredAt(acks: Delivery, k: int, req: RequestId) {
    0 <= k < |acks| && acks[k].req == req && acks[k].ok && forall j :: 0 <= j < k ==> acks[j].req != req
  }

  ghost predicate Accepts(acks: Delivery, req: RequestId) {
    exists k :: AnsweredAt(acks, k, req)
  }

  lemma {:induction false} AnswerMeans(acks: Delivery, req: RequestId)
    ensures Answer(acks, req) == Some(Ack(req, true)) <==> Accepts(acks, req)
    ensures forall k :: AnsweredAt(acks, k, req) ==> AfterAnswer(acks, req) == acks[k + 1..]
  {
    if acks != [] {
      var rest := acks[1..];
      AnswerMeans(rest, req);
      if acks[0].req == req {
        assert acks[0].ok ==> AnsweredAt(acks, 0, req);
      } else {
        forall k | AnsweredAt(acks, k, req) ensures AnsweredAt(rest, k - 1, req) && acks[k + 1..] == rest[k..] {
          assert forall j :: 0 <= j < |rest| ==> rest[j] == acks[j + 1];
        }
        forall k | AnsweredAt(rest, k, req) ensures AnsweredAt(acks, k + 1, req) {
          assert forall j :: 0 < j < |acks| ==> acks[j] == rest[j - 1];
        }
      }
    }
  }

  /** The loops of broadcastAndWait. */
  method CollectAnswers(req: RequestId, sessions: seq<Delivery>, accepted: nat)
      returns (ok: bool, left: seq<Delivery>)
    requires accepted <= |sessions|
    ensures ok <==> sessions != [] && accepted == |sessions|
                    && forall s :: 0 <= s < |sessions| ==> Answer(sessions[s], req) == Some(Ack(req, true))
    ensures |left| == |sessions|
    ensures ok ==> forall s :: 0 <= s < |sessions| ==> left[s] == AfterAnswer(sessions[s], req)
  {
    left := sessions;
    if |sessions| == 0 || accepted < |sessions| {
      return false, left;
    }
    for s := 0 to |sessions|
      invariant |left| == |sessions|
      invariant forall j :: 0 <= j < s ==>
                  Answer(sessions[j], req) == Some(Ack(req, true)) && left[j] == AfterAnswer(sessions[j], req)
      invariant forall j :: s <= j < |sessions| ==> left[j] == sessions[j]
    {
      var answered := false;
      while !answered
        invariant |left| == |sessions|
        invariant forall j :: 0 <= j < |sessions| && j != s ==>
                    left[j] == if j < s then AfterAnswer(sessions[j], req) else sessions[j]
        invariant !answered ==> Answer(left[s], req) == Answer(sessions[s], req)
        invariant !answered ==> AfterAnswer(left[s], req) == AfterAnswer(sessions[s], req)
        invariant answered ==> Answer(sessions[s], req) == Some(Ack(req, true))
        invariant answered ==> left[s] == AfterAnswer(sessions[s], req)
        decreases if answered then 0 else 1, |left[s]|
      {
        if left[s] == [] {
          return false, left;
        }
        var ack := left[s][0];
        left := left[s := left[s][1..]];
        if ack.req != req {
          continue;
        }
        if !ack.ok {
          return false, left;
        }
        answered := true;
      }
    }
    return true, left;
  }

  /** One await of the deployment protocol is one turn of that loop: a foreign acknowledgement does not
      change the answer that is waited for, and the first one of the request decides. */
  lemma AwaitIsOneTurn(st: State)
    requires CanAwait(st)
    ensures var dp := st.deploy.value;
            var s := dp.chosen[dp.acked];
            var acks, st' := st.sessions[s].acks, AwaitStep(st);
            var acks' := st'.sessions[s].acks;
            && (st'.deploy == st.deploy ==>
                  Answer(acks', dp.req) == Answer(acks, dp.req)
                    && AfterAnswer(acks', dp.req) == AfterAnswer(acks, dp.req))
            && (st'.deploy != st.deploy && st'.deploy.Some? ==>
                  st'.deploy == Some(dp.(acked := dp.acked + 1)) && Answer(acks, dp.req) == Some(Ack(dp.req, true))
                  && acks' == AfterAnswer(acks, dp.req))
            && (st'.deploy.None? ==>
                  Answer(acks, dp.req) == Some(Ack(dp.req, false))
                    && Finished(dp.req, dp.change, dp.chosen, false) in st'.log)
  {
    var dp := st.deploy.value;
    var acks := st.sessions[dp.chosen[dp.acked]].acks;
    assert Answer(acks, dp.req) == if acks[0].req == dp.req then Some(acks[0]) else Answer(acks[1..], dp.req);
  }
}
