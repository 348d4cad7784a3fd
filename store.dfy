/**
  The existence-gated runner of scripts/generateAudio.js as a function of its
  inputs. The file store is a map from path to entry (existence is the only
  thing the runner ever asks about); the speech service, failing writes and
  failing mkdir calls come from an environment the model does not decide.
  A run is a sequence of steps: making sure a directory exists, or an
  existence-gated clip.
 */
module Store {
  import opened Synthesis
  import opened Expanders

  datatype Entry = Directory | File(bytes: seq<bv8>)

  /** What the speech service answers: audio bytes, or an error (quota, network, rejected input). */
  datatype Reply = Audio(bytes: seq<bv8>) | ServiceError

  /** One request sent to the speech service, with the output path it was sent for. */
  datatype Call = Call(path: string, request: Request)

  /**
    The outside world. synth gives the service's reply to the n-th request of
    the store's history (so transient faults can be expressed); writeFile
    fails on the paths in unwritable; mkdir fails on the directories in
    unmakeable.
   */
  datatype Env = Env(synth: (nat, Request) -> Reply, unwritable: set<string>, unmakeable: set<string>)

  /** The store, every synthesis call made so far, and how many 1000 ms pauses were taken. */
  datatype State = State(store: map<string, Entry>, calls: seq<Call>, delays: nat)

  datatype Step =
    | EnsureDir(dir: string)          // ensureDirectoryExists
    | Gate(task: Task, paced: bool)   // skip if the path exists, else synthesise, write and (if paced) wait

  /** The state a run reached, and whether an error escaped to the outer catch and ended it. */
  datatype Run = Run(state: State, aborted: bool)

  function Target(step: Step): string {
    match step
    case EnsureDir(d) => d
    case Gate(t, _) => t.path
  }

  /** st' keeps every path of st with the same entry, and every call of st. */
  ghost predicate Extends(st: State, st': State) {
    && st.calls <= st'.calls
    && st.delays <= st'.delays
    && forall p :: p in st.store ==> p in st'.store && st'.store[p] == st.store[p]
  }

  lemma ExtendsTransitive(a: State, b: State, c: State)
    requires Extends(a, b) && Extends(b, c)
    ensures Extends(a, c)
  {
  }

  /** The reply the next synthesis call for task receives. */
  function NextReply(env: Env, st: State, task: Task): Reply {
    env.synth(|st.calls|, SynthesisRequest(task.text, task.useSsml))
  }

  /**
    generateAudioFile: one synthesis call; the bytes are written to the path
    when the service answered and the write succeeds; any failure is caught
    and leaves no file.
   */
  function Synthesize(env: Env, st: State, task: Task): (r: State)
    ensures |r.calls| == |st.calls| + 1 && r.calls[..|st.calls|] == st.calls
    ensures r.calls[|st.calls|] == Call(task.path, SynthesisRequest(task.text, task.useSsml))
    ensures r.calls[|st.calls|].path == task.path && Spoken(r.calls[|st.calls|].request.input) == task.text
    ensures r.delays == st.delays
    ensures forall p :: p in st.store && p != task.path ==> p in r.store && r.store[p] == st.store[p]
    ensures r.store.Keys <= st.store.Keys + {task.path}
    ensures NextReply(env, st, task).ServiceError? || task.path in env.unwritable ==> r.store == st.store
    ensures NextReply(env, st, task).Audio? && task.path !in env.unwritable ==>
              task.path in r.store && r.store[task.path] == File(NextReply(env, st, task).bytes)
  {
    var request := SynthesisRequest(task.text, task.useSsml);
    var calls := st.calls + [Call(task.path, request)];
    match env.synth(|st.calls|, request)
    case Audio(bytes) =>
      if task.path in env.unwritable then st.(calls := calls)
      else st.(store := st.store[task.path := File(bytes)], calls := calls)
    case ServiceError => st.(calls := calls)
  }

  /** One step of a run: nothing happens when the step's target already exists. */
  function ExecStep(env: Env, st: State, step: Step): (r: Run)
    ensures Target(step) in st.store ==> r == Run(st, false)
    ensures step.Gate? ==> !r.aborted
  {
    match step
    case EnsureDir(d) =>
      if d in st.store then Run(st, false)
      else if d in env.unmakeable then Run(st, true)
      else Run(st.(store := st.store[d := Directory]), false)
    case Gate(task, paced) =>
      if task.path in st.store then Run(st, false)
      else
        var s := Synthesize(env, st, task);
        Run(if paced then s.(delays := s.delays + 1) else s, false)
  }

  /**
    What one step may do: keep every path, call and pause; add at most its
    own target; end the run only on a directory mkdir cannot make; make one
    synthesis call exactly when its clip is missing, and one pause when that
    clip is paced.
   */
  lemma StepEffect(env: Env, st: State, step: Step)
    ensures Extends(st, ExecStep(env, st, step).state)
    ensures ExecStep(env, st, step).state.store.Keys <= st.store.Keys + {Target(step)}
    ensures ExecStep(env, st, step).aborted ==>
              step.EnsureDir? && step.dir !in st.store && step.dir in env.unmakeable && ExecStep(env, st, step).state == st
    ensures step.EnsureDir? ==> ExecStep(env, st, step).state.calls == st.calls && ExecStep(env, st, step).state.delays == st.delays
    ensures step.EnsureDir? && !ExecStep(env, st, step).aborted ==> step.dir in ExecStep(env, st, step).state.store
    ensures step.Gate? ==> |ExecStep(env, st, step).state.calls| == |st.calls| + (if Target(step) in st.store then 0 else 1)
    ensures step.Gate? ==>
              ExecStep(env, st, step).state.delays == st.delays + (if Target(step) !in st.store && step.paced then 1 else 0)
  {
  }

  /** Runs the next step unless the run has already been ended. */
  function ThenStep(env: Env, r: Run, step: Step): Run {
    if r.aborted then r else ExecStep(env, r.state, step)
  }

  /** Runs the next steps unless the run has already been ended. */
  function Then(env: Env, r: Run, steps: seq<Step>): Run {
    if r.aborted then r else Exec(env, r.state, steps)
  }

  /** A run of the steps in order, stopping at the first step that ends it. */
  function Exec(env: Env, st: State, steps: seq<Step>): (r: Run)
    ensures Extends(st, r.state)
    ensures forall i :: |st.calls| <= i < |r.state.calls| ==> r.state.calls[i].path !in st.store
    ensures r.state.delays - st.delays <= |r.state.calls| - |st.calls|
  {
    if steps == [] then Run(st, false)
    else
      var prev := Exec(env, st, steps[..|steps| - 1]);
      var r := ThenStep(env, prev, steps[|steps| - 1]);
      StepEffect(env, prev.state, steps[|steps| - 1]);
      ExtendsTransitive(st, prev.state, r.state);
      r
  }

  lemma {:induction false} ExecAppend(env: Env, st: State, a: seq<Step>, b: seq<Step>)
    ensures Exec(env, st, a + b) == Then(env, Exec(env, st, a), b)
    decreases |b|
  {
    if b == [] {
      assert a + b == a;
    } else {
      var b' := b[..|b| - 1];
      assert (a + b)[..|a + b| - 1] == a + b';
      ExecAppend(env, st, a, b');
    }
  }

  /** Running one more step is the run so far followed by that step. */
  lemma ExecSnoc(env: Env, st: State, steps: seq<Step>, step: Step)
    ensures Exec(env, st, steps + [step]) == ThenStep(env, Exec(env, st, steps), step)
  {
    assert (steps + [step])[..|steps|] == steps;
  }

  /** Every step's target exists. */
  ghost predicate Done(st: State, steps: seq<Step>) {
    forall i :: 0 <= i < |steps| ==> Target(steps[i]) in st.store
  }

  /** An environment in which every synthesis call succeeds and every write lands. */
  ghost predicate Reliable(env: Env) {
    && (forall n, q :: env.synth(n, q).Audio?)
    && env.unwritable == {}
  }

  /** After a run that was not ended, with every call and write succeeding, every target of the run exists. */
  lemma {:induction false} ReliableRunCompletes(env: Env, st: State, steps: seq<Step>)
    requires Reliable(env)
    requires !Exec(env, st, steps).aborted
    ensures Done(Exec(env, st, steps).state, steps)
  {
    if steps != [] {
      var init := steps[..|steps| - 1];
      var step := steps[|steps| - 1];
      var prev := Exec(env, st, init);
      ReliableRunCompletes(env, st, init);
      var r := ExecStep(env, prev.state, step);
      if step.Gate? && step.task.path !in prev.state.store {
        assert NextReply(env, prev.state, step.task).Audio?;
      }
      forall i | 0 <= i < |steps| ensures Target(steps[i]) in r.state.store {
        if i < |init| { assert steps[i] == init[i]; }
      }
    }
  }

  /** When every target already exists, a run changes nothing: no call, no write, no pause, no error. */
  lemma {:induction false} DoneRunIsIdle(env: Env, st: State, steps: seq<Step>)
    requires Done(st, steps)
    ensures Exec(env, st, steps) == Run(st, false)
  {
    if steps != [] {
      var init := steps[..|steps| - 1];
      assert Done(st, init) by {
        forall i | 0 <= i < |init| ensures Target(init[i]) in st.store { assert init[i] == steps[i]; }
      }
      DoneRunIsIdle(env, st, init);
    }
  }

  /** Idempotence: after a completed run in which every call succeeded, the same run again makes no call and changes nothing. */
  lemma SecondRunIsIdle(env1: Env, env2: Env, st: State, steps: seq<Step>)
    requires Reliable(env1)
    requires !Exec(env1, st, steps).aborted
    ensures Exec(env2, Exec(env1, st, steps).state, steps) == Run(Exec(env1, st, steps).state, false)
  {
    ReliableRunCompletes(env1, st, steps);
    DoneRunIsIdle(env2, Exec(env1, st, steps).state, steps);
  }

  /** Every clip step waits. */
  ghost predicate AllPaced(steps: seq<Step>) {
    forall i :: 0 <= i < |steps| && steps[i].Gate? ==> steps[i].paced
  }

  /** When every clip step waits, there is exactly one pause per synthesis call. */
  lemma {:induction false} PacedDelays(env: Env, st: State, steps: seq<Step>)
    requires AllPaced(steps)
    ensures Exec(env, st, steps).state.delays - st.delays == |Exec(env, st, steps).state.calls| - |st.calls|
  {
    if steps != [] {
      var init := steps[..|steps| - 1];
      assert AllPaced(init) by {
        forall i | 0 <= i < |init| && init[i].Gate? ensures init[i].paced { assert init[i] == steps[i]; }
      }
      PacedDelays(env, st, init);
    }
  }
}
