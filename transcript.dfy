/** The transcript list and the per-speaker accumulation buffers.
    `UpdateTranscript` is the functional updater handed to `setTranscripts`;
    the functions on `TextState` give the transcript half of the message
    handler: fragments appended to the speaker's buffer, and the flush of
    both buffers on turn completion. */
module Transcript {
  import opened Types

  /** True when an update for `source` rewrites the last entry: there is a
      last entry, it is from the same speaker and it is still open. Only the
      last entry is ever looked at. */
  predicate OverwritesLast(prev: seq<Item>, source: Source)
  {
    |prev| > 0 && prev[|prev| - 1].source == source && !prev[|prev| - 1].isComplete
  }

  /** `next` is a possible later transcript of `prev`: no entry disappears,
      every entry keeps its id, speaker and timestamp, and all entries but the
      last, as well as every complete entry, are left exactly as they were. */
  predicate Extends(prev: seq<Item>, next: seq<Item>)
  {
    && |prev| <= |next|
    && (forall i :: 0 <= i < |prev| ==>
          next[i].id == prev[i].id && next[i].source == prev[i].source && next[i].timestamp == prev[i].timestamp)
    && (forall i :: 0 <= i < |prev| && (i < |prev| - 1 || prev[i].isComplete) ==> next[i] == prev[i])
  }

  lemma ExtendsTransitive(a: seq<Item>, b: seq<Item>, c: seq<Item>)
    requires Extends(a, b) && Extends(b, c)
    ensures Extends(a, c)
  {
  }

  /** The transcript after one `updateTranscript(source, text, isComplete)`;
      `id` and `timestamp` are the fresh values a new entry would get. */
  function UpdateTranscript(prev: seq<Item>, source: Source, text: string, isComplete: bool,
                            id: nat, timestamp: int): (r: seq<Item>)
    ensures Extends(prev, r)
    ensures OverwritesLast(prev, source) ==>
              && |r| == |prev|
              && r[..|r| - 1] == prev[..|prev| - 1]
              && r[|r| - 1] == prev[|prev| - 1].(text := text, isComplete := isComplete)
    ensures !OverwritesLast(prev, source) && text == "" && !isComplete ==> r == prev
    ensures !OverwritesLast(prev, source) && (text != "" || isComplete) ==>
              r == prev + [Item(id, source, text, isComplete, timestamp)]
  {
    if OverwritesLast(prev, source) then
      prev[..|prev| - 1] + [prev[|prev| - 1].(text := text, isComplete := isComplete)]
    else if text == "" && !isComplete then
      prev
    else
      prev + [Item(id, source, text, isComplete, timestamp)]
  }

  /** After an update that carries text, or that completes, the last entry is
      that speaker's, with that text and that completion flag. */
  lemma UpdateEndsWith(prev: seq<Item>, source: Source, text: string, isComplete: bool, id: nat, timestamp: int)
    requires text != "" || isComplete
    ensures var r := UpdateTranscript(prev, source, text, isComplete, id, timestamp);
            |r| > 0 && r[|r| - 1].source == source && r[|r| - 1].text == text
            && r[|r| - 1].isComplete == isComplete
  {
  }

  /** Ids below `nextId` and pairwise distinct: a fresh id is always new. */
  predicate FreshIds(items: seq<Item>, nextId: nat)
  {
    && (forall i :: 0 <= i < |items| ==> items[i].id < nextId)
    && (forall i, j :: 0 <= i < j < |items| ==> items[i].id != items[j].id)
  }

  lemma UpdateKeepsIdsFresh(prev: seq<Item>, source: Source, text: string, isComplete: bool, id: nat, timestamp: int)
    ensures FreshIds(prev, id) ==> FreshIds(UpdateTranscript(prev, source, text, isComplete, id, timestamp), id + 1)
  {
    if FreshIds(prev, id) {
      var r := UpdateTranscript(prev, source, text, isComplete, id, timestamp);
      forall i, j | 0 <= i < j < |r| ensures r[i].id != r[j].id {
        if j < |prev| {
          assert r[i].id == prev[i].id && r[j].id == prev[j].id;
        } else {
          assert r[j].id == id && r[i].id == prev[i].id;
        }
      }
    }
  }

  /** The two accumulation buffers (`currentInputTransRef`,
      `currentOutputTransRef`), the transcript, and the next fresh id. */
  datatype TextState = TextState(input: string, output: string, items: seq<Item>, nextId: nat)

  function Buffer(st: TextState, source: Source): (b: string)
  {
    if source.User? then st.input else st.output
  }

  function WithBuffer(st: TextState, source: Source, b: string): (r: TextState)
    ensures Buffer(r, source) == b && Buffer(r, Other(source)) == Buffer(st, Other(source))
    ensures r.items == st.items && r.nextId == st.nextId
  {
    if source.User? then st.(input := b) else st.(output := b)
  }

  /** One `updateTranscript` call applied to the state; it draws one fresh id. */
  function Push(st: TextState, source: Source, text: string, isComplete: bool, now: int): (r: TextState)
    ensures r.input == st.input && r.output == st.output && r.nextId == st.nextId + 1
    ensures r.items == UpdateTranscript(st.items, source, text, isComplete, st.nextId, now)
    ensures FreshIds(st.items, st.nextId) ==> FreshIds(r.items, r.nextId)
  {
    UpdateKeepsIdsFresh(st.items, source, text, isComplete, st.nextId, now);
    st.(items := UpdateTranscript(st.items, source, text, isComplete, st.nextId, now), nextId := st.nextId + 1)
  }

  /** A transcription fragment for `source`: an empty fragment changes
      nothing; otherwise the speaker's buffer grows by the fragment and the
      whole buffer is sent to `updateTranscript` as an open entry. */
  function Accumulate(st: TextState, source: Source, fragment: string, now: int): (r: TextState)
    ensures fragment == "" ==> r == st
    ensures fragment != "" ==>
              && Buffer(r, source) == Buffer(st, source) + fragment
              && Buffer(r, Other(source)) == Buffer(st, Other(source))
              && r.items == UpdateTranscript(st.items, source, Buffer(st, source) + fragment, false, st.nextId, now)
              && |r.items| > 0 && r.items[|r.items| - 1].source == source
              && r.items[|r.items| - 1].text == Buffer(r, source) && !r.items[|r.items| - 1].isComplete
    ensures Extends(st.items, r.items)
    ensures FreshIds(st.items, st.nextId) ==> FreshIds(r.items, r.nextId)
  {
    if fragment == "" then st
    else
      var b := Buffer(st, source) + fragment;
      UpdateEndsWith(st.items, source, b, false, st.nextId, now);
      Push(WithBuffer(st, source, b), source, b, false, now)
  }

  /** Flushes one speaker's buffer on turn completion: a non-empty buffer is
      sent as a complete entry and then emptied; an empty one sends nothing. */
  function CompleteBuffer(st: TextState, source: Source, now: int): (r: TextState)
    ensures Buffer(st, source) == "" ==> r == st
    ensures Buffer(r, source) == "" && Buffer(r, Other(source)) == Buffer(st, Other(source))
    ensures Buffer(st, source) != "" ==>
              r.items == UpdateTranscript(st.items, source, Buffer(st, source), true, st.nextId, now)
    ensures Extends(st.items, r.items)
    ensures FreshIds(st.items, st.nextId) ==> FreshIds(r.items, r.nextId)
  {
    if Buffer(st, source) == "" then st
    else WithBuffer(Push(st, source, Buffer(st, source), true, now), source, "")
  }

  /** The `turnComplete` branch: the user's buffer then the model's. */
  function CompleteTurn(st: TextState, now: int): (r: TextState)
    ensures r.input == "" && r.output == ""
    ensures st.input == "" && st.output == "" ==> r == st
    ensures Extends(st.items, r.items)
    ensures FreshIds(st.items, st.nextId) ==> FreshIds(r.items, r.nextId)
  {
    var a := CompleteBuffer(st, User, now);
    var b := CompleteBuffer(a, Model, now);
    ExtendsTransitive(st.items, a.items, b.items);
    b
  }

  /** After turn completion the transcript ends with the flushed turns, each
      complete and carrying its speaker's whole buffer: the model's last, the
      user's just before it when both spoke. */
  lemma CompleteTurnEnds(st: TextState, now: int)
    ensures var r := CompleteTurn(st, now);
            && (st.output != "" ==>
                  && |r.items| > 0
                  && r.items[|r.items| - 1].source == Model && r.items[|r.items| - 1].text == st.output
                  && r.items[|r.items| - 1].isComplete)
            && (st.input != "" ==>
                  var k := if st.output != "" then 2 else 1;
                  && |r.items| >= k
                  && r.items[|r.items| - k].source == User && r.items[|r.items| - k].text == st.input
                  && r.items[|r.items| - k].isComplete)
  {
    var a := CompleteBuffer(st, User, now);
    var r := CompleteTurn(st, now);
    assert r == CompleteBuffer(a, Model, now);
    if st.input != "" {
      UpdateEndsWith(st.items, User, st.input, true, st.nextId, now);
    }
    if st.output != "" {
      assert a.output == st.output;
      UpdateEndsWith(a.items, Model, st.output, true, a.nextId, now);
      if st.input != "" {
        assert !OverwritesLast(a.items, Model);
        assert r.items == a.items + [Item(a.nextId, Model, st.output, true, now)];
        assert r.items[|r.items| - 2] == a.items[|a.items| - 1];
      }
    } else {
      assert r == a;
    }
  }

  /** The transcript effects of one server message: the input fragment, the
      output fragment, then turn completion, in the handler's order. */
  function MessageEffects(st: TextState, msg: ServerMessage, now: int): (r: TextState)
    ensures msg.serverContent.None? ==> r == st
    ensures Extends(st.items, r.items)
    ensures FreshIds(st.items, st.nextId) ==> FreshIds(r.items, r.nextId)
    ensures msg.serverContent.Some? && msg.serverContent.value.turnComplete ==> r.input == "" && r.output == ""
  {
    match msg.serverContent
    case None => st
    case Some(c) =>
      var a := Accumulate(st, User, FragmentOf(c.inputTranscription), now);
      var b := Accumulate(a, Model, FragmentOf(c.outputTranscription), now);
      ExtendsTransitive(st.items, a.items, b.items);
      if c.turnComplete then
        var d := CompleteTurn(b, now);
        ExtendsTransitive(st.items, b.items, d.items);
        d
      else b
  }

  /** The transcript effects of a stream of messages, processed one by one;
      `nows[k]` is the time at which message `k` is handled. */
  function Run(st: TextState, msgs: seq<ServerMessage>, nows: seq<int>): (r: TextState)
    requires |nows| == |msgs|
    decreases |msgs|
  {
    if msgs == [] then st else Run(MessageEffects(st, msgs[0], nows[0]), msgs[1..], nows[1..])
  }

  /** Over any stream of messages, entries are never removed, never change
      id, speaker or timestamp, a complete entry is never modified, and ids
      stay fresh. */
  lemma {:induction false} RunExtends(st: TextState, msgs: seq<ServerMessage>, nows: seq<int>)
    requires |nows| == |msgs|
    ensures Extends(st.items, Run(st, msgs, nows).items)
    ensures FreshIds(st.items, st.nextId) ==> FreshIds(Run(st, msgs, nows).items, Run(st, msgs, nows).nextId)
    decreases |msgs|
  {
    if msgs != [] {
      var a := MessageEffects(st, msgs[0], nows[0]);
      RunExtends(a, msgs[1..], nows[1..]);
      ExtendsTransitive(st.items, a.items, Run(st, msgs, nows).items);
    }
  }

  /** A complete entry is never touched again. */
  lemma CompleteItemsAreFinal(st: TextState, msgs: seq<ServerMessage>, nows: seq<int>, i: nat)
    requires |nows| == |msgs|
    requires i < |st.items| && st.items[i].isComplete
    ensures i < |Run(st, msgs, nows).items| && Run(st, msgs, nows).items[i] == st.items[i]
  {
    RunExtends(st, msgs, nows);
  }

}

module TranscriptExamples {
  import opened Types
  import opened Transcript

  function InputFragment(t: string): (msg: ServerMessage)
  {
    ServerMessage(Some(ServerContent(Some(Transcription(Some(t))), None, false, None, false)))
  }

  function OutputFragment(t: string): (msg: ServerMessage)
  {
    ServerMessage(Some(ServerContent(None, Some(Transcription(Some(t))), false, None, false)))
  }

  const TurnComplete: ServerMessage := ServerMessage(Some(ServerContent(None, None, true, None, false)))

  const Empty: TextState := TextState("", "", [], 0)

  /** A message carrying only a non-empty input (or output) fragment. */
  lemma FragmentStep(st: TextState, source: Source, t: string, now: int)
    requires t != ""
    ensures MessageEffects(st, if source == User then InputFragment(t) else OutputFragment(t), now)
            == Push(WithBuffer(st, source, Buffer(st, source) + t), source, Buffer(st, source) + t, false, now)
  {
    var msg := if source == User then InputFragment(t) else OutputFragment(t);
    var c := msg.serverContent.value;
    if source == User {
      assert FragmentOf(c.inputTranscription) == t && FragmentOf(c.outputTranscription) == "";
    } else {
      assert FragmentOf(c.inputTranscription) == "" && FragmentOf(c.outputTranscription) == t;
    }
  }

  /** A message carrying only the turn-complete flag. */
  lemma TurnCompleteStep(st: TextState, now: int)
    ensures MessageEffects(st, TurnComplete, now) == CompleteTurn(st, now)
  {
    var c := TurnComplete.serverContent.value;
    assert FragmentOf(c.inputTranscription) == "" && FragmentOf(c.outputTranscription) == "";
  }

  lemma RunThree(st: TextState, m0: ServerMessage, m1: ServerMessage, m2: ServerMessage, n0: int, n1: int, n2: int)
    ensures Run(st, [m0, m1, m2], [n0, n1, n2]) == MessageEffects(MessageEffects(MessageEffects(st, m0, n0), m1, n1), m2, n2)
    ensures Run(st, [m0, m1], [n0, n1]) == MessageEffects(MessageEffects(st, m0, n0), m1, n1)
  {
    var s1 := MessageEffects(st, m0, n0);
    var s2 := MessageEffects(s1, m1, n1);
    var s3 := MessageEffects(s2, m2, n2);
    assert [m0, m1, m2][1..] == [m1, m2] && [m1, m2][1..] == [m2] && [m2][1..] == [];
    assert [n0, n1, n2][1..] == [n1, n2] && [n1, n2][1..] == [n2] && [n2][1..] == [];
    assert [m0, m1][1..] == [m1] && [m1][1..] == [];
    assert [n0, n1][1..] == [n1] && [n1][1..] == [];
    assert Run(s2, [m2], [n2]) == Run(s3, [], []) == s3;
    assert Run(s1, [m1, m2], [n1, n2]) == Run(s2, [m2], [n2]);
    assert Run(st, [m0, m1, m2], [n0, n1, n2]) == Run(s1, [m1, m2], [n1, n2]);
    assert Run(s1, [m1], [n1]) == Run(s2, [], []) == s2;
    assert Run(st, [m0, m1], [n0, n1]) == Run(s1, [m1], [n1]);
  }

  /** The times at which the three example messages are handled. */
  const T0: int := 10
  const T1: int := 20
  const T2: int := 30

  const OpenHel: TextState := TextState("Hel", "", [Item(0, User, "Hel", false, T0)], 1)

  lemma HelStep()
    ensures MessageEffects(Empty, InputFragment("Hel"), T0) == OpenHel
  {
    FragmentStep(Empty, User, "Hel", T0);
    assert "" + "Hel" == "Hel";
  }

  lemma LoStep()
    ensures MessageEffects(OpenHel, InputFragment("lo"), T1)
            == TextState("Hello", "", [Item(0, User, "Hello", false, T0)], 2)
  {
    FragmentStep(OpenHel, User, "lo", T1);
    assert "Hel" + "lo" == "Hello";
    assert OverwritesLast(OpenHel.items, User);
  }

  lemma HelloCompleteStep()
    ensures MessageEffects(TextState("Hello", "", [Item(0, User, "Hello", false, T0)], 2), TurnComplete, T2)
            == TextState("", "", [Item(0, User, "Hello", true, T0)], 3)
  {
    var open := TextState("Hello", "", [Item(0, User, "Hello", false, T0)], 2);
    TurnCompleteStep(open, T2);
    var u := CompleteBuffer(open, User, T2);
    assert OverwritesLast(open.items, User);
    assert u.items == [Item(0, User, "Hello", true, T0)];
    assert u == TextState("", "", [Item(0, User, "Hello", true, T0)], 3);
  }

  /** Fragments "Hel" and "lo" for the user give one open entry "Hello",
      stamped when "Hel" arrived; turn completion closes that same entry and
      empties the buffers. */
  lemma HelloExample()
    ensures Run(Empty, [InputFragment("Hel"), InputFragment("lo")], [T0, T1]).items
            == [Item(0, User, "Hello", false, T0)]
    ensures Run(Empty, [InputFragment("Hel"), InputFragment("lo"), TurnComplete], [T0, T1, T2])
            == TextState("", "", [Item(0, User, "Hello", true, T0)], 3)
  {
    HelStep();
    LoStep();
    HelloCompleteStep();
    RunThree(Empty, InputFragment("Hel"), InputFragment("lo"), TurnComplete, T0, T1, T2);
  }

  const BothOpen: TextState :=
    TextState("Hel", "Bon", [Item(0, User, "Hel", false, T0), Item(1, Model, "Bon", false, T1)], 2)

  lemma BonStep()
    ensures MessageEffects(OpenHel, OutputFragment("Bon"), T1) == BothOpen
  {
    FragmentStep(OpenHel, Model, "Bon", T1);
    assert "" + "Bon" == "Bon";
    assert !OverwritesLast(OpenHel.items, Model);
  }

  lemma BothCompleteStep()
    ensures MessageEffects(BothOpen, TurnComplete, T2).items
            == BothOpen.items + [Item(2, User, "Hel", true, T2), Item(3, Model, "Bon", true, T2)]
  {
    TurnCompleteStep(BothOpen, T2);
    var u := CompleteBuffer(BothOpen, User, T2);
    assert !OverwritesLast(BothOpen.items, User);
    assert u == TextState("", "Bon", BothOpen.items + [Item(2, User, "Hel", true, T2)], 3);
    assert !OverwritesLast(u.items, Model);
    assert CompleteBuffer(u, Model, T2).items == u.items + [Item(3, Model, "Bon", true, T2)];
  }

  /** Only the last entry is ever inspected: when the model speaks after the
      user within a turn, turn completion appends a second, complete copy of
      each speaker's text and leaves both earlier entries open for good. */
  lemma InterleavedTurnLeavesOpenEntries()
    ensures Run(Empty, [InputFragment("Hel"), OutputFragment("Bon"), TurnComplete], [T0, T1, T2]).items
            == [Item(0, User, "Hel", false, T0), Item(1, Model, "Bon", false, T1),
                Item(2, User, "Hel", true, T2), Item(3, Model, "Bon", true, T2)]
  {
    HelStep();
    BonStep();
    BothCompleteStep();
    RunThree(Empty, InputFragment("Hel"), OutputFragment("Bon"), TurnComplete, T0, T1, T2);
  }
}
