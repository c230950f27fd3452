/** The process-wide request guard of `verify_m2_phase2.py`: per-service caps, one combined cap for
    the model services, and a stop that sticks. `Admit` is one atomic step. */
module RequestGuards {
  import opened Wrappers
  import opened Protocols

  datatype Refusal = HostNotAllowed | Stopped(service: Service) | CapReached(service: Service)

  datatype GuardReply = Admitted(service: Service) | Refused(why: Refusal)

  datatype Stop = Stop(service: Service, status: int)

  /** One value of the guard's fields. */
  datatype GuardState = GuardState(
    caps: map<Service, nat>,
    llmCap: nat,
    sent: Counter,
    refused: map<Refusal, nat>,
    statuses: map<Stop, nat>,
    byPackage: map<(Service, string), nat>,
    stoppedBy: Option<Stop>)
  {
    function Cap(s: Service): nat {
      if s in caps then caps[s] else 0
    }

    ghost predicate WithinCaps() {
      && (forall s: Service :: Count(sent, s) <= Cap(s))
      && LlmCount(sent) <= llmCap
    }
  }

  /** The allowlist: any other host is refused. */
  function ServiceOf(host: string): Option<Service> {
    if host == "api.geoapify.com" then Some(Geoapify)
    else if host == "api.open-meteo.com" then Some(OpenMeteo)
    else if host == "date.nager.at" then Some(NagerDate)
    else if host == "api.frankfurter.app" || host == "api.frankfurter.dev" then Some(Frankfurter)
    else if host == "mcp.kiwi.com" then Some(Kiwi)
    else if host == "api.groq.com" then Some(Groq)
    else if host == "generativelanguage.googleapis.com" then Some(Gemini)
    else None
  }

  /** The data services; a model service's rate limit is left to failover. */
  predicate StopsOn429(s: Service) {
    s in {Geoapify, OpenMeteo, NagerDate, Frankfurter, Kiwi}
  }

  function Bump<K>(counter: map<K, nat>, key: K): map<K, nat> {
    counter[key := (if key in counter then counter[key] else 0) + 1]
  }

  function AdmitStep(g: GuardState, host: string, package: string): (GuardState, GuardReply) {
    match ServiceOf(host)
    case None => (g.(refused := Bump(g.refused, HostNotAllowed)), Refused(HostNotAllowed))
    case Some(s) =>
      if g.stoppedBy.Some? then
        (g.(refused := Bump(g.refused, Stopped(s))), Refused(Stopped(s)))
      else if Count(g.sent, s) >= g.Cap(s) || (IsLlm(s) && LlmCount(g.sent) >= g.llmCap) then
        (g.(refused := Bump(g.refused, CapReached(s))), Refused(CapReached(s)))
      else
        (g.(sent := Bump(g.sent, s), byPackage := Bump(g.byPackage, (s, package))), Admitted(s))
  }

  function ObserveStep(g: GuardState, s: Service, status: int): GuardState {
    var counted := g.(statuses := Bump(g.statuses, Stop(s, status)));
    if (status == 401 || status == 403 || (status == 429 && StopsOn429(s))) && g.stoppedBy.None? then
      counted.(stoppedBy := Some(Stop(s, status)))
    else
      counted
  }

  class Guard {
    var caps: map<Service, nat>
    var llmCap: nat
    var sent: Counter
    var refused: map<Refusal, nat>
    var statuses: map<Stop, nat>
    var byPackage: map<(Service, string), nat>
    var stoppedBy: Option<Stop>

    constructor (caps: map<Service, nat>, llmCap: nat)
      ensures State() == GuardState(caps, llmCap, map[], map[], map[], map[], None)
    {
      this.caps, this.llmCap := caps, llmCap;
      sent, refused, statuses, byPackage, stoppedBy := map[], map[], map[], map[], None;
    }

    ghost function State(): GuardState
      reads this
    {
      GuardState(caps, llmCap, sent, refused, statuses, byPackage, stoppedBy)
    }

    /** Admitted exactly when the host is known, nothing has stopped the guard and both caps leave room. */
    method Admit(host: string, package: string) returns (r: GuardReply)
      modifies this
      ensures (State(), r) == AdmitStep(old(State()), host, package)
    {
      var service := ServiceOf(host);
      if service.None? {
        refused := Bump(refused, HostNotAllowed);
        return Refused(HostNotAllowed);
      }
      var s := service.value;
      if stoppedBy.Some? {
        refused := Bump(refused, Stopped(s));
        return Refused(Stopped(s));
      }
      var llmUsed := Count(sent, Groq) + Count(sent, Gemini);
      if Count(sent, s) >= (if s in caps then caps[s] else 0) || (IsLlm(s) && llmUsed >= llmCap) {
        refused := Bump(refused, CapReached(s));
        return Refused(CapReached(s));
      }
      sent := Bump(sent, s);
      byPackage := Bump(byPackage, (s, package));
      return Admitted(s);
    }

    method Observe(s: Service, status: int)
      modifies this
      ensures State() == ObserveStep(old(State()), s, status)
    {
      statuses := Bump(statuses, Stop(s, status));
      if status == 401 || status == 403 || (status == 429 && StopsOn429(s)) {
        if stoppedBy.None? {
          stoppedBy := Some(Stop(s, status));
        }
      }
    }

    /** What `run_one` does to the guard before an attempt: the attempt's caps, and cleared counters.
        A stop, and the per-package counts, survive. */
    method Rearm(caps: map<Service, nat>, llmCap: nat)
      modifies this
      ensures State() ==
              old(State()).(caps := caps, llmCap := llmCap, sent := map[], refused := map[], statuses := map[])
      ensures State().WithinCaps()
    {
      this.caps, this.llmCap := caps, llmCap;
      sent, refused, statuses := map[], map[], map[];
    }
  }

  // -- whole runs of the guard --------------------------------------------------------------------

  datatype Step = Ask(host: string, package: string) | Answer(service: Service, status: int)

  function StepOf(g: GuardState, step: Step): (GuardState, Option<Service>) {
    match step
    case Ask(host, package) =>
      var (after, reply) := AdmitStep(g, host, package);
      (after, if reply.Admitted? then Some(reply.service) else None)
    case Answer(s, status) => (ObserveStep(g, s, status), None)
  }

  /** The state after `steps`, and the requests that went out, in order. */
  function RunOf(g: GuardState, steps: seq<Step>): (GuardState, seq<Service>)
    decreases |steps|
  {
    if steps == [] then (g, [])
    else
      var (next, out) := StepOf(g, steps[0]);
      var (last, rest) := RunOf(next, steps[1..]);
      (last, (if out.Some? then [out.value] else []) + rest)
  }

  /** A step adds exactly what it lets out to the counters, and leaves the caps alone. */
  lemma StepCounts(g: GuardState, step: Step, s: Service)
    ensures StepOf(g, step).0.caps == g.caps && StepOf(g, step).0.llmCap == g.llmCap
    ensures Count(StepOf(g, step).0.sent, s) == Count(g.sent, s) + (if StepOf(g, step).1 == Some(s) then 1 else 0)
  {
    match step
    case Ask(host, package) => AdmitCounts(g, host, package, s);
    case Answer(_, _) =>
  }

  lemma AdmitCounts(g: GuardState, host: string, package: string, s: Service)
    ensures var (after, reply) := AdmitStep(g, host, package);
            && after.caps == g.caps && after.llmCap == g.llmCap
            && Count(after.sent, s) == Count(g.sent, s) + (if reply == Admitted(s) then 1 else 0)
  {
    var (after, reply) := AdmitStep(g, host, package);
    assert after.sent == if reply.Admitted? then Bump(g.sent, reply.service) else g.sent;
  }

  lemma StepKeepsCaps(g: GuardState, step: Step)
    requires g.WithinCaps()
    ensures StepOf(g, step).0.WithinCaps()
  {
    var after := StepOf(g, step).0;
    forall s: Service ensures Count(after.sent, s) <= after.Cap(s) {
      StepCounts(g, step, s);
    }
    StepCounts(g, step, Groq);
    StepCounts(g, step, Gemini);
  }

  /** Over any run: the caps hold, and the counters are exactly what went out. */
  lemma {:induction false} CapsAlwaysHold(g: GuardState, steps: seq<Step>, s: Service)
    requires g.WithinCaps()
    ensures RunOf(g, steps).0.WithinCaps()
    ensures Count(RunOf(g, steps).0.sent, s) == Count(g.sent, s) + Times(RunOf(g, steps).1, s)
    ensures Count(g.sent, s) + Times(RunOf(g, steps).1, s) <= g.Cap(s)
    decreases |steps|
  {
    if steps != [] {
      StepKeepsCaps(g, steps[0]);
      StepCounts(g, steps[0], s);
      var (next, out) := StepOf(g, steps[0]);
      CapsAlwaysHold(next, steps[1..], s);
      TimesConcat(if out.Some? then [out.value] else [], RunOf(next, steps[1..]).1, s);
      assert next.Cap(s) == g.Cap(s);
    } else {
      assert Count(g.sent, s) <= g.Cap(s);
    }
  }

  /** After the first stop nothing is sent and the recorded reason never changes. */
  lemma {:induction false} StopSticks(g: GuardState, steps: seq<Step>)
    requires g.stoppedBy.Some?
    ensures RunOf(g, steps).1 == []
    ensures RunOf(g, steps).0.stoppedBy == g.stoppedBy && RunOf(g, steps).0.sent == g.sent
    decreases |steps|
  {
    if steps != [] {
      StopSticks(StepOf(g, steps[0]).0, steps[1..]);
    }
  }

  /** One more step at the end. */
  lemma {:induction false} RunOfAppend(g: GuardState, steps: seq<Step>, step: Step)
    ensures var (before, out) := RunOf(g, steps);
            var (after, went) := StepOf(before, step);
            RunOf(g, steps + [step]) == (after, out + if went.Some? then [went.value] else [])
    decreases |steps|
  {
    if steps == [] {
      assert [] + [step] == [step];
      var (after, went) := StepOf(g, step);
      assert [step][1..] == [] && RunOf(after, []) == (after, []);
      var last := if went.Some? then [went.value] else [];
      assert last + [] == last == [] + last;
    } else {
      var (next, first) := StepOf(g, steps[0]);
      RunOfAppend(next, steps[1..], step);
      assert (steps + [step])[1..] == steps[1..] + [step] && (steps + [step])[0] == steps[0];
      var head, tail := if first.Some? then [first.value] else [], RunOf(next, steps[1..]).1;
      var went := StepOf(RunOf(g, steps).0, step).1;
      var last := if went.Some? then [went.value] else [];
      assert head + (tail + last) == (head + tail) + last;
    }
  }

  /** The step at which a guard first stops is the last that matters: everything sent went out before it. */
  lemma {:induction false} FirstStop(g: GuardState, steps: seq<Step>) returns (n: nat)
    requires g.stoppedBy.None? && RunOf(g, steps).0.stoppedBy.Some?
    ensures n < |steps| && RunOf(g, steps[..n]).0.stoppedBy.None?
    ensures RunOf(g, steps[..n + 1]).0.stoppedBy == RunOf(g, steps).0.stoppedBy
    ensures RunOf(g, steps[..n]).1 == RunOf(g, steps).1
    decreases |steps|
  {
    var next := StepOf(g, steps[0]).0;
    if next.stoppedBy.Some? {
      StopSticks(next, steps[1..]);
      n := 0;
      assert steps[..1][1..] == [];
    } else {
      var m := FirstStop(next, steps[1..]);
      n := m + 1;
      assert steps[..n][1..] == steps[1..][..m] && steps[..n + 1][1..] == steps[1..][..m + 1];
      assert steps[..n][0] == steps[0] == steps[..n + 1][0];
    }
  }
}
