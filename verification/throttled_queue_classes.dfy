/**
 * Which class the option given to add() puts an item in, where that places it, and how fast a backlog
 * drains, said of whole calls and whole drains.
 */
module QueueClasses {
  import opened Letters
  import opened Options
  import opened QueueGuarantees
  import opened QueueSpec

  const KELVIN := '\U{212A}'

  /** The same letter, whatever its case. */
  predicate SameLetter(ch: char, lower: char) {
    || ch == lower
    || AreCases(lower, ch)
    || (ch == KELVIN && lower == 'k')
  }

  /** The option, in whatever case, is this name. */
  predicate Names(option: Option<string>, name: string) {
    && option.Some? && |option.value| == |name|
    && forall i :: 0 <= i < |name| ==> SameLetter(option.value[i], name[i])
  }

  lemma LowerIsSameLetter(ch: char, lower: char)
    requires 'a' <= lower <= 'z' || lower == '_'
    ensures LowerChar(ch) == lower <==> SameLetter(ch, lower)
  {
    CasesIff(lower, ch);
    hide AreCases;
  }

  predicate PlainName(name: string) {
    forall i :: 0 <= i < |name| ==> 'a' <= name[i] <= 'z' || name[i] == '_'
  }

  lemma NamesIffLower(option: string, name: string)
    requires PlainName(name)
    ensures Lower(option) == name <==> Names(Some(option), name)
  {
    hide LowerChar, SameLetter;
    if |option| == |name| {
      forall i | 0 <= i < |name| ensures LowerChar(option[i]) == name[i] <==> SameLetter(option[i], name[i]) {
        LowerIsSameLetter(option[i], name[i]);
      }
    }
  }

  lemma ClassIffNamed(option: Option<string>)
    ensures ClassNamed(option) == Some(Critical) <==> Names(option, "critical")
    ensures ClassNamed(option) == Some(Interactive) <==> Names(option, "interactive")
    ensures ClassNamed(option) == Some(Bulk) <==> Names(option, "bulk")
    ensures ClassNamed(option) == None <==> Names(option, "constructor") || Names(option, "__proto__")
  {
    if option.Some? {
      NamesIffLower(option.value, "critical");
      NamesIffLower(option.value, "interactive");
      NamesIffLower(option.value, "bulk");
      NamesIffLower(option.value, "constructor");
      NamesIffLower(option.value, "__proto__");
    }
    hide Names, Lower;
  }

  /**
   * Whatever the option, the call adds the item to exactly the class named, in whatever case: to the
   * normal one if it names none of the others, and to none if it names what every object inherits.
   */
  lemma NameDecidesClass<T>(c: Settings, s: State<T>, option: Option<string>, item: T, env: Env)
    ensures var s', was := AddNamed(c, s, option, item, env), s.added;
            s'.added == if Names(option, "critical") then was.(critical := was.critical + [item])
                        else if Names(option, "interactive") then was.(interactive := was.interactive + [item])
                        else if Names(option, "bulk") then was.(bulk := was.bulk + [item])
                        else if Names(option, "constructor") || Names(option, "__proto__") then was
                        else was.(normal := was.normal + [item])
  {
    hide Names, AddNamed, ClassNamed, MakeRoom;
    ClassIffNamed(option);
    AddRecords(c, s, option, item, env);
    RoomAddsNothing(c, s);
  }

  lemma RoomAddsNothing<T>(c: Settings, s: State<T>)
    ensures MakeRoom(c, s).added == s.added && MakeRoom(c, s).active == s.active
  {
    hide Lowest, Lanes.With, Lanes.Append;
  }

  /**
   * So on a running queue an interactive item is served before every queued normal and bulk one, a bulk
   * item after everything, and each behind the items of its own class; room made for it aside.
   */
  lemma NameDecidesPlace<T>(c: Settings, s: State<T>, option: Option<string>, item: T, env: Env)
    requires s.active
    ensures var q, order := MakeRoom(c, s).lanes, AddNamed(c, s, option, item, env).lanes.ServiceOrder();
            order == if Names(option, "critical") then q.critical + [item] + q.interactive + q.normal + q.bulk
                     else if Names(option, "interactive") then q.critical + q.interactive + [item] + q.normal + q.bulk
                     else if Names(option, "bulk") then q.critical + q.interactive + q.normal + q.bulk + [item]
                     else if Names(option, "constructor") || Names(option, "__proto__") then q.ServiceOrder()
                     else q.critical + q.interactive + q.normal + [item] + q.bulk
  {
    hide Names, ClassNamed, MakeRoom;
    ClassIffNamed(option);
    RoomAddsNothing(c, s);
    var q := MakeRoom(c, s).lanes;
    assert q.critical + q.interactive + q.normal + (q.bulk + [item])
        == q.critical + q.interactive + q.normal + q.bulk + [item];
    assert q.critical + q.interactive + (q.normal + [item]) == q.critical + q.interactive + q.normal + [item];
    assert q.critical + (q.interactive + [item]) == q.critical + q.interactive + [item];
  }

  // Pace.

  /** How long the timers of a drain take together. */
  function Elapsed<T>(c: Settings, s: State<T>, envs: seq<Env>): nat
    requires Ready(s) && GateOpen(envs) && |envs| <= s.lanes.Length()
    decreases |envs|
  {
    if envs == [] then 0
    else
      TickServesOne(c, s, envs[0]);
      assert s.lanes.Length() == |s.lanes.ServiceOrder()|;
      s.timer.value + Elapsed(c, Tick(c, s, envs[0]), envs[1..])
  }

  /** The dynamic intervals answered before the last item, all of them usable. */
  function Answered(envs: seq<Env>): nat
    requires forall i :: 0 <= i < |envs| ==> envs[i].interval.Some? && envs[i].interval.value > 0
  {
    if |envs| <= 1 then 0 else envs[0].interval.value + Answered(envs[1..])
  }

  lemma TickArms<T>(c: Settings, s: State<T>, env: Env)
    requires Ready(s) && s.lanes.Length() > 0 && env.gateOpen
    ensures Tick(c, s, env).timer == Some(if env.interval.Some? && env.interval.value > 0 then env.interval.value
                                          else c.intervalMs)
  {
    hide Highest, Lanes.With, Lanes.Append;
  }

  /** Without usable dynamic intervals the items of a backlog leave exactly intervalMs apart. */
  lemma {:induction false} DrainIsPaced<T>(c: Settings, s: State<T>, envs: seq<Env>)
    requires Ready(s) && GateOpen(envs) && 0 < |envs| <= s.lanes.Length()
    requires forall i :: 0 <= i < |envs| ==> envs[i].interval.None? || envs[i].interval.value <= 0
    ensures Elapsed(c, s, envs) == s.timer.value + (|envs| - 1) * c.intervalMs
    decreases |envs|
  {
    hide Tick;
    var s1, rest := Tick(c, s, envs[0]), envs[1..];
    TickServesOne(c, s, envs[0]);
    TickArms(c, s, envs[0]);
    assert s.lanes.Length() == |s.lanes.ServiceOrder()|;
    if |envs| == 1 {
      assert Elapsed(c, s1, rest) == 0;
    } else {
      DrainIsPaced(c, s1, rest);
    }
  }

  /** With them, each answer is exactly the wait before the next item. */
  lemma {:induction false} DrainFollowsAnswers<T>(c: Settings, s: State<T>, envs: seq<Env>)
    requires Ready(s) && GateOpen(envs) && 0 < |envs| <= s.lanes.Length()
    requires forall i :: 0 <= i < |envs| ==> envs[i].interval.Some? && envs[i].interval.value > 0
    ensures Elapsed(c, s, envs) == s.timer.value + Answered(envs)
    decreases |envs|
  {
    hide Tick;
    var s1, rest := Tick(c, s, envs[0]), envs[1..];
    TickServesOne(c, s, envs[0]);
    TickArms(c, s, envs[0]);
    assert s.lanes.Length() == |s.lanes.ServiceOrder()|;
    if |envs| == 1 {
      assert Elapsed(c, s1, rest) == 0;
    } else {
      DrainFollowsAnswers(c, s1, rest);
    }
  }

  /** Nothing queued, nothing being processed, and no timer to come: a fresh queue, or one that ran dry. */
  predicate IsIdle<T>(s: State<T>) {
    s.lanes.Length() == 0 && !s.active && !s.processing && s.timer.None?
  }

  lemma RunsDry<T>(c: Settings, s: State<T>, env: Env)
    ensures IsIdle(Initial<T>())
    ensures s.timer.Some? && s.lanes.Length() == 0 && !s.processing ==>
              TimerFires(c, s, env) == s.(active := false, timer := None) && IsIdle(TimerFires(c, s, env))
  {
  }

  /** On an idle queue an item is processed within the call that adds it, and then paces the next. */
  lemma IdleServesAtOnce<T>(c: Settings, s: State<T>, option: Option<string>, item: T, env: Env)
    requires IsIdle(s) && env.gateOpen && !Names(option, "constructor") && !Names(option, "__proto__")
    ensures var s' := AddNamed(c, s, option, item, env);
            && s'.processed == s.processed + [item] && s'.lanes.Length() == 0 && s'.active
            && if env.outcome == Defers then s'.processing && s'.inFlight == s.inFlight + 1 && s'.timer == None
               else !s'.processing && s'.inFlight == s.inFlight
                    && s'.timer == Some(if env.interval.Some? && env.interval.value > 0 then env.interval.value
                                        else c.intervalMs)
  {
    ClassIffNamed(option);
    hide Names, ClassNamed;
    var s1 := Push(c, s, ClassNamed(option).value, item);
    assert s1.lanes.Get(ClassNamed(option).value) == [item] && s1.lanes.ServiceOrder() == [item];
    TakesServiceOrder(s1);
  }

  /** A closed gate costs a waiting queue the blocked delay and nothing else, each time the timer fires. */
  lemma GateOnlyDelays<T>(c: Settings, s: State<T>, env: Env)
    requires Ready(s) && s.lanes.Length() > 0 && !env.gateOpen
    ensures TimerFires(c, s, env) == s.(timer := Some(c.retryWhenBlockedMs))
  {
  }
}
