/** A question from the microphone to the provider: what was captured is what the provider session is handed. */
module QuestionDelivery {
  import opened WireTypes
  import opened VoiceActor
  import A = CaptureProgress
  import D = ServerUplink
  import G = UplinkProgress
  import S = ActorSafety
  import T = ClientTransport

  /** The samples of the frames. */
  function Pcms(fs: seq<Frame>): (pcms: seq<seq<byte>>)
    ensures |pcms| == |fs| && forall i :: 0 <= i < |fs| ==> pcms[i] == fs[i].pcm
  {
    seq(|fs|, i requires 0 <= i < |fs| => fs[i].pcm)
  }

  lemma SaidFrom(ids: WireIds, fs: seq<Frame>, i: nat)
    requires i <= |fs|
    ensures G.Said(ids, Pcms(fs), i) ==
            if i == |fs| then [T.Ctl(T.TurnCommit, ids)]
            else [T.Audio(ids, Flags(i == 0, i + 1 == |fs|), i, fs[i].pcm)] + G.Said(ids, Pcms(fs), i + 1)
  {
  }

  /** The frames on the wire from number `i` on. */
  lemma {:induction false} WireFrom(ids: WireIds, fs: seq<Frame>, i: nat)
    requires i <= |fs| && fs != []
    ensures A.OnWire(ids, fs, 0, true) + [T.Ctl(T.TurnCommit, ids)]
            == A.OnWire(ids, fs[..i], 0, i == |fs|) + G.Said(ids, Pcms(fs), i)
    decreases |fs| - i
  {
    hide A.OnWire, G.Said, Pcms;
    SaidFrom(ids, fs, i);
    if i == |fs| {
      assert fs[..i] == fs;
    } else {
      var over := i + 1 == |fs|;
      WireFrom(ids, fs, i + 1);
      A.WireMore(ids, fs[..i], fs[i], 0, over);
      assert fs[..i] + [fs[i]] == fs[..i + 1];
      var front, m, rest := A.OnWire(ids, fs[..i], 0, false), T.Audio(ids, Flags(i == 0, over), i, fs[i].pcm),
                            G.Said(ids, Pcms(fs), i + 1);
      assert (front + [m]) + rest == front + ([m] + rest);
    }
  }

  /** An utterance as the device logs it is one as the server expects it. */
  lemma WireIsSaid(ids: WireIds, fs: seq<Frame>)
    requires fs != []
    ensures A.OnWire(ids, fs, 0, true) + [T.Ctl(T.TurnCommit, ids)] == G.Said(ids, Pcms(fs), 0)
  {
    WireFrom(ids, fs, 0);
    assert fs[..0] == [];
    assert A.OnWire(ids, fs[..0], 0, false) == [];
    hide A.OnWire;
  }

  /** The log behind `before` is one utterance the server can take. */
  lemma CommittedIsSaid(a: Actor, ids: WireIds, before: seq<T.Uplink>, fs: seq<Frame>)
    requires A.Committed(a, ids, before, 0, fs) && fs != []
    ensures a.link.value.sent == before + G.Said(ids, Pcms(fs), 0)
  {
    WireIsSaid(ids, fs);
    hide A.OnWire, G.Said;
    assert before + A.OnWire(ids, fs, 0, true) + [T.Ctl(T.TurnCommit, ids)]
           == before + (A.OnWire(ids, fs, 0, true) + [T.Ctl(T.TurnCommit, ids)]);
  }

  /**
   * What is asked while nothing disturbs it reaches the provider: the messages the
   * device sends behind the turn's start make a willing server hand over exactly
   * the captured samples, pre-roll first, cut into full frames, and commit them.
   */
  lemma QuestionReachesTheProvider(
    config: Config, net: seq<Slot>, audio: seq<bool>, ops: seq<Op>, c: Clock, f: Frame, more: seq<Op>, d: Clock,
    g: Frame, downlink: nat, answers: seq<D.Answer>)
    requires var s := S.Device(config, net, audio, ops);
             var t := Step(s, Finish(c, Some(f)));
             && s.pc == Checked && A.Ready(s) && A.Calm(c) && A.Expected(s.a, f) && A.Opens(s.a, f)
             && A.AllProper(A.Ring(s.a.pre, f) + A.Given(t, more) + [g])
             && A.Talking(t, more) && A.EndsWith(Run(t, more), d, g)
             && A.Smooth(s.a, 1 + |A.Ring(s.a.pre, f)| + |A.Given(t, more)| + 2)
             && Fits32(s.a.turn) && |answers| == |A.Ring(s.a.pre, f)| + |A.Given(t, more)| + 2
    requires config.uuid != G.Codec.NIL_UUID && forall k :: 0 <= k < |answers| ==> G.Willing(answers[k])
    ensures var s := S.Device(config, net, audio, ops);
            var t := Step(s, Finish(c, Some(f)));
            var u := Step(Run(t, more), Finish(d, Some(g)));
            var fs, ids, n := A.Ring(s.a.pre, f) + A.Given(t, more) + [g], s.a.turn, |s.a.link.value.sent|;
            && u.a.link.Some? && n < |u.a.link.value.sent|
            && u.a.link.value.sent[..n] == s.a.link.value.sent
            && u.a.link.value.sent[n] == T.Ctl(T.TurnStart, ids)
            && var ms := u.a.link.value.sent[n + 1..];
               && |ms| == |answers| && (forall k :: 0 <= k < |ms| ==> D.OnWire(ms[k]))
               && var h := D.ServeAll(D.Started(config.uuid, ids, downlink), ms, config.uuid, answers);
                  && h.active && h.committed && h.faults == 0
                  && h.received == Flatten(Pcms(fs)) && h.appended == D.FramesOf(Flatten(Pcms(fs)))
  {
    hide A.Smooth, A.Talking, A.Committed, A.Given, A.EndsWith, A.Ring, A.AllProper, A.Expected, A.Calm, A.Opens;
    hide A.Ready, Run, Step, G.Willing, G.Said, D.ServeAll, D.FramesOf, D.OnWire, Flatten;
    var s := S.Device(config, net, audio, ops);
    hide S.Device;
    var t := Step(s, Finish(c, Some(f)));
    var u := Step(Run(t, more), Finish(d, Some(g)));
    var ring, rest := A.Ring(s.a.pre, f), A.Given(t, more);
    var fs, ids := ring + rest + [g], s.a.turn;
    assert ring + (rest + [g]) == fs;
    FirstProper(ring, rest + [g]);
    ReadyUp(s);
    A.QuestionGoesOut(config, net, audio, ops, c, f, more, d, g);
    var before := s.a.link.value.sent + [T.Ctl(T.TurnStart, ids)];
    CommittedUp(u.a, ids, before, fs);
    CommittedIsSaid(u.a, ids, before, fs);
    Packets(fs);
    G.UtteranceReachesTheProvider(config.uuid, ids, Pcms(fs), downlink, answers);
  }

  lemma ReadyUp(s: System)
    requires A.Ready(s)
    ensures s.a.link.Some?
  {
  }

  lemma FirstProper(fs: seq<Frame>, gs: seq<Frame>)
    requires A.AllProper(fs + gs)
    ensures A.AllProper(fs)
  {
    forall i | 0 <= i < |fs| ensures fs[i] == (fs + gs)[i] {
    }
  }

  lemma CommittedUp(a: Actor, ids: WireIds, before: seq<T.Uplink>, fs: seq<Frame>)
    requires A.Committed(a, ids, before, 0, fs)
    ensures a.link.Some?
  {
  }

  lemma Packets(fs: seq<Frame>)
    requires A.AllProper(fs)
    ensures forall k :: 0 <= k < |Pcms(fs)| ==> G.Packet(Pcms(fs)[k])
  {
    forall k | 0 <= k < |Pcms(fs)| ensures G.Packet(Pcms(fs)[k]) {
      assert A.Proper(fs[k]);
    }
  }
}
