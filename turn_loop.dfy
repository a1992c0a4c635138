/**
 * The driver loop the services run over an agent group chat. The chat is a finite stream of
 * turns; in each, the selected agent may call plugin functions and then either answers or
 * the stream raises. The loop counts every answer, fails once the count passes the budget,
 * records the answers that carry a name, and stops at the first answer from the designated
 * agent whose content contains the completion marker.
 */
module TurnLoop {
  import opened Wrappers
  import opened Strings

  /** A chat message as the library yields it. */
  datatype Response = Response(name: Option<string>, content: string)

  /** What a turn ends with: an answer, or an exception raised while producing one. */
  datatype Event = Reply(response: Response) | Raise(reason: string)

  /** One pull from the chat stream: the plugin calls the agent made, then the event. */
  datatype Turn<C> = Turn(calls: seq<C>, event: Event)

  /** An entry of `agent_messages`. */
  datatype AgentMessage = AgentMessage(role: string, name: Option<string>, content: string)

  /** The exceptions the services raise: ValueError or RuntimeError with its message. */
  datatype Failure = ValueError(msg: string) | RuntimeError(msg: string)

  /** The budget, the agent whose answer can end the chat, and the word it must use. */
  datatype LoopConfig = LoopConfig(budget: nat, terminator: string, marker: string)

  /** `if response and response.name`. */
  predicate Named(r: Response) {
    r.name.Some? && r.name.value != []
  }

  /** The message recorded for a named answer. */
  function Record(r: Response): AgentMessage {
    AgentMessage("assistant", r.name, r.content)
  }

  /** The messages recorded while the turns `ts` are processed: their named answers, in order. */
  function Recorded<C>(ts: seq<Turn<C>>): seq<AgentMessage> {
    if ts == [] then []
    else
      var e := ts[|ts| - 1].event;
      Recorded(ts[..|ts| - 1]) + if e.Reply? && Named(e.response) then [Record(e.response)] else []
  }

  /** The plugin calls made during the turns `ts`, in order. */
  function CallsOf<C>(ts: seq<Turn<C>>): seq<C> {
    if ts == [] then [] else CallsOf(ts[..|ts| - 1]) + ts[|ts| - 1].calls
  }

  /** The answer comes from the terminator and contains the marker. */
  predicate Completes(e: Event, cfg: LoopConfig) {
    e.Reply? && Named(e.response) && e.response.name.value == cfg.terminator &&
    Contains(e.response.content, cfg.marker)
  }

  /**
   * The loop leaves at turn `k`: the stream raised, the answer made the count pass the
   * budget (checked before anything else about it), or the answer completes the chat.
   */
  predicate StopsAt<C>(ts: seq<Turn<C>>, k: nat, cfg: LoopConfig)
    requires k < |ts|
  {
    ts[k].event.Raise? || k >= cfg.budget || Completes(ts[k].event, cfg)
  }

  /** The first turn at or after `from` at which the loop leaves, if any. */
  function FirstStop<C>(ts: seq<Turn<C>>, cfg: LoopConfig, from: nat): (r: Option<nat>)
    requires from <= |ts|
    ensures r.Some? ==> from <= r.value < |ts| && StopsAt(ts, r.value, cfg)
    ensures r.Some? ==> forall j | from <= j < r.value :: !StopsAt(ts, j, cfg)
    ensures r.None? ==> forall j | from <= j < |ts| :: !StopsAt(ts, j, cfg)
    ensures from <= cfg.budget ==> if r.Some? then r.value <= cfg.budget else |ts| <= cfg.budget
    decreases |ts| - from
  {
    if from == |ts| then None
    else if StopsAt(ts, from, cfg) then Some(from)
    else FirstStop(ts, cfg, from + 1)
  }

  /** How a run of the loop ends. `consumed` is the number of turns pulled from the stream. */
  datatype Outcome =
    | Completed(consumed: nat, messages: seq<AgentMessage>)
    | Raised(reason: string)
    | OverBudget
    | Exhausted

  /** The loop run over the stream `ts`. */
  function Run<C>(ts: seq<Turn<C>>, cfg: LoopConfig): Outcome {
    match FirstStop(ts, cfg, 0)
    case None => Exhausted
    case Some(k) =>
      if ts[k].event.Raise? then Raised(ts[k].event.reason)
      else if k >= cfg.budget then OverBudget
      else Completed(k + 1, Recorded(ts[..k + 1]))
  }

  /** The turns pulled before the loop leaves: up to and including the stopping one, or all. */
  function Pulled<C>(ts: seq<Turn<C>>, cfg: LoopConfig): (n: nat)
    ensures n <= |ts|
  {
    match FirstStop(ts, cfg, 0)
    case None => |ts|
    case Some(k) => k + 1
  }

  /**
   * One step of the loop at turn `i`, with no stop before it: either the run ends here, with
   * `i + 1` turns pulled, or the first stop lies further on.
   */
  lemma StepAt<C>(ts: seq<Turn<C>>, cfg: LoopConfig, i: nat)
    requires i < |ts| && FirstStop(ts, cfg, 0) == FirstStop(ts, cfg, i)
    ensures StopsAt(ts, i, cfg) ==>
      (Pulled(ts, cfg) == i + 1 &&
       Run(ts, cfg) == if ts[i].event.Raise? then Raised(ts[i].event.reason)
                       else if i >= cfg.budget then OverBudget
                       else Completed(i + 1, Recorded(ts[..i + 1])))
    ensures !StopsAt(ts, i, cfg) ==> FirstStop(ts, cfg, 0) == FirstStop(ts, cfg, i + 1)
  {
  }

  /** A stream read to its end without a stop is exhausted, every turn pulled. */
  lemma EndOfStream<C>(ts: seq<Turn<C>>, cfg: LoopConfig)
    requires FirstStop(ts, cfg, 0) == FirstStop(ts, cfg, |ts|)
    ensures Pulled(ts, cfg) == |ts| && Run(ts, cfg) == Exhausted
  {
  }

  lemma {:induction false} RecordedLength<C>(ts: seq<Turn<C>>)
    ensures |Recorded(ts)| <= |ts|
    ensures forall i | 0 <= i < |Recorded(ts)| ::
      Recorded(ts)[i].role == "assistant" && Recorded(ts)[i].name.Some? && Recorded(ts)[i].name.value != []
  {
    if ts != [] {
      RecordedLength(ts[..|ts| - 1]);
    }
  }

  /**
   * A completed run pulled at most `budget` turns, recorded at most that many messages, all
   * of them named answers, and ended on an answer that completes the chat.
   */
  lemma CompletedBound<C>(ts: seq<Turn<C>>, cfg: LoopConfig)
    requires Run(ts, cfg).Completed?
    ensures Run(ts, cfg).consumed <= cfg.budget
    ensures |Run(ts, cfg).messages| <= Run(ts, cfg).consumed
    ensures Completes(ts[Run(ts, cfg).consumed - 1].event, cfg)
    ensures Run(ts, cfg).consumed == Pulled(ts, cfg)
  {
    var k := FirstStop(ts, cfg, 0).value;
    RecordedLength(ts[..k + 1]);
  }

  /** No turn before `k` raised, and none of them completed the chat. */
  predicate QuietBefore<C>(ts: seq<Turn<C>>, k: nat, cfg: LoopConfig)
    requires k <= |ts|
  {
    forall j | 0 <= j < k :: ts[j].event.Reply? && !Completes(ts[j].event, cfg)
  }

  /** A stop with no stop before it, from `from` on, is the first one. */
  lemma {:induction false} FirstStopAt<C>(ts: seq<Turn<C>>, cfg: LoopConfig, from: nat, k: nat)
    requires from <= k < |ts| && StopsAt(ts, k, cfg)
    requires forall j | from <= j < k :: !StopsAt(ts, j, cfg)
    ensures FirstStop(ts, cfg, from) == Some(k)
    decreases k - from
  {
    if from < k {
      FirstStopAt(ts, cfg, from + 1, k);
    }
  }

  /** With no stop from `from` on, there is no first one. */
  lemma {:induction false} FirstStopNone<C>(ts: seq<Turn<C>>, cfg: LoopConfig, from: nat)
    requires from <= |ts|
    requires forall j | from <= j < |ts| :: !StopsAt(ts, j, cfg)
    ensures FirstStop(ts, cfg, from) == None
    decreases |ts| - from
  {
    if from < |ts| {
      FirstStopNone(ts, cfg, from + 1);
    }
  }

  /**
   * The run completes exactly when, within the budget, some answer completes the chat and
   * every turn before it answered without completing; it stops at that first one.
   */
  lemma CompletedIff<C>(ts: seq<Turn<C>>, cfg: LoopConfig, k: nat)
    requires k < |ts|
    ensures (Run(ts, cfg).Completed? && Run(ts, cfg).consumed == k + 1) <==>
            (k < cfg.budget && Completes(ts[k].event, cfg) && QuietBefore(ts, k, cfg))
  {
    if k < cfg.budget && Completes(ts[k].event, cfg) && QuietBefore(ts, k, cfg) {
      FirstStopAt(ts, cfg, 0, k);
    }
    if Run(ts, cfg).Completed? && Run(ts, cfg).consumed == k + 1 {
      assert FirstStop(ts, cfg, 0) == Some(k);
      forall j | 0 <= j < k
        ensures ts[j].event.Reply? && !Completes(ts[j].event, cfg)
      {
        assert !StopsAt(ts, j, cfg);
      }
    }
  }

  /** The run exceeds the budget exactly when the budget's worth of answers came and none completed. */
  lemma OverBudgetIff<C>(ts: seq<Turn<C>>, cfg: LoopConfig)
    ensures Run(ts, cfg).OverBudget? <==>
            cfg.budget < |ts| && QuietBefore(ts, cfg.budget, cfg) && ts[cfg.budget].event.Reply?
  {
    if cfg.budget < |ts| && QuietBefore(ts, cfg.budget, cfg) && ts[cfg.budget].event.Reply? {
      FirstStopAt(ts, cfg, 0, cfg.budget);
    }
    if Run(ts, cfg).OverBudget? {
      var k := FirstStop(ts, cfg, 0).value;
      assert QuietBefore(ts, cfg.budget, cfg) by {
        forall j | 0 <= j < cfg.budget
          ensures ts[j].event.Reply? && !Completes(ts[j].event, cfg)
        {
          assert !StopsAt(ts, j, cfg);
        }
      }
    }
  }

  lemma {:induction false} FirstStopExtend<C>(ts: seq<Turn<C>>, more: seq<Turn<C>>, cfg: LoopConfig, from: nat)
    requires from <= |ts|
    requires FirstStop(ts, cfg, from).Some?
    ensures FirstStop(ts + more, cfg, from) == FirstStop(ts, cfg, from)
    decreases |ts| - from
  {
    assert (ts + more)[from] == ts[from];
    if !StopsAt(ts, from, cfg) {
      FirstStopExtend(ts, more, cfg, from + 1);
    }
  }

  /**
   * Turns after the one the loop stops at are never looked at: appending more turns to a
   * stream on which the run has ended changes nothing.
   */
  lemma RunExtend<C>(ts: seq<Turn<C>>, more: seq<Turn<C>>, cfg: LoopConfig)
    requires !Run(ts, cfg).Exhausted?
    ensures Run(ts + more, cfg) == Run(ts, cfg)
    ensures Pulled(ts + more, cfg) == Pulled(ts, cfg)
  {
    FirstStopExtend(ts, more, cfg, 0);
    var k := FirstStop(ts, cfg, 0).value;
    assert (ts + more)[..k + 1] == ts[..k + 1];
  }

  /** The stream runs dry exactly when it is no longer than the budget and nothing in it ends the loop. */
  lemma ExhaustedIff<C>(ts: seq<Turn<C>>, cfg: LoopConfig)
    ensures Run(ts, cfg).Exhausted? <==> |ts| <= cfg.budget && QuietBefore(ts, |ts|, cfg)
  {
    if |ts| <= cfg.budget && QuietBefore(ts, |ts|, cfg) {
      FirstStopNone(ts, cfg, 0);
    }
    if FirstStop(ts, cfg, 0).None? {
      forall j | 0 <= j < |ts|
        ensures ts[j].event.Reply? && !Completes(ts[j].event, cfg)
      {
        assert !StopsAt(ts, j, cfg);
      }
    }
  }

  lemma RecordedSnoc<C>(ts: seq<Turn<C>>, t: Turn<C>)
    ensures Recorded(ts + [t]) ==
            Recorded(ts) + if t.event.Reply? && Named(t.event.response) then [Record(t.event.response)] else []
    ensures CallsOf(ts + [t]) == CallsOf(ts) + t.calls
  {
    assert (ts + [t])[..|ts|] == ts;
  }

  /** The two streams end every turn the same way; the plugin calls may differ. */
  predicate SameEvents<C, D>(ts: seq<Turn<C>>, us: seq<Turn<D>>) {
    |ts| == |us| && forall i | 0 <= i < |ts| :: ts[i].event == us[i].event
  }

  lemma {:induction false} FirstStopSameEvents<C, D>(ts: seq<Turn<C>>, us: seq<Turn<D>>, cfg: LoopConfig, from: nat)
    requires SameEvents(ts, us) && from <= |ts|
    ensures FirstStop(ts, cfg, from) == FirstStop(us, cfg, from)
    decreases |ts| - from
  {
    if from < |ts| {
      assert ts[from].event == us[from].event;
      FirstStopSameEvents(ts, us, cfg, from + 1);
    }
  }

  lemma {:induction false} RecordedSameEvents<C, D>(ts: seq<Turn<C>>, us: seq<Turn<D>>)
    requires SameEvents(ts, us)
    ensures Recorded(ts) == Recorded(us)
  {
    if ts != [] {
      assert SameEvents(ts[..|ts| - 1], us[..|us| - 1]);
      RecordedSameEvents(ts[..|ts| - 1], us[..|us| - 1]);
      assert ts[|ts| - 1].event == us[|us| - 1].event;
    }
  }

  /**
   * The loop's outcome depends only on how the turns end: two streams whose events agree
   * run the same way and are pulled from equally far, whatever plugin calls they carry.
   */
  lemma RunSameEvents<C, D>(ts: seq<Turn<C>>, us: seq<Turn<D>>, cfg: LoopConfig)
    requires SameEvents(ts, us)
    ensures Run(ts, cfg) == Run(us, cfg)
    ensures Pulled(ts, cfg) == Pulled(us, cfg)
  {
    FirstStopSameEvents(ts, us, cfg, 0);
    if FirstStop(ts, cfg, 0).Some? {
      var k := FirstStop(ts, cfg, 0).value;
      assert ts[k].event == us[k].event;
      assert SameEvents(ts[..k + 1], us[..k + 1]);
      RecordedSameEvents(ts[..k + 1], us[..k + 1]);
    }
  }

  /** `result_parser`: a non-empty selector output is passed on as it is, anything else falls back. */
  function ParseSelection(x: Option<string>, fallback: string): (r: string)
    ensures x.Some? && x.value != [] ==> r == x.value
    ensures x.None? || x.value == [] ==> r == fallback
  {
    if x.Some? && x.value != [] then x.value else fallback
  }

  /** The group chat's history, into which a service puts its opening message. */
  class GroupChat {
    var history: seq<AgentMessage>

    constructor()
      ensures history == []
    {
      history := [];
    }

    /** `add_chat_message`. */
    method AddChatMessage(m: AgentMessage)
      modifies this
      ensures history == old(history) + [m]
    {
      history := history + [m];
    }
  }
}
