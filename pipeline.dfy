/**
  The whole of generateAllAudio (scripts/generateAudio.js) as one sequence
  of steps, in its fixed category order: directories, words, the "the word
  is" prompt, congratulations, support, questions, letters.
 */
module Pipeline {
  import opened Optional
  import opened Names
  import opened Expanders
  import opened Store

  function WordsDir(audioDir: string): string { Join(audioDir, "words") }
  function OtherDir(audioDir: string): string { Join(audioDir, "other") }
  function CongratsDir(audioDir: string): string { Join(audioDir, "congrats") }
  function SupportDir(audioDir: string): string { Join(audioDir, "support") }
  function QuestionDir(audioDir: string): string { Join(audioDir, "questions") }
  function LettersDir(audioDir: string): string { Join(audioDir, "letters") }

  /** Existence-gated steps for the tasks, in order. */
  function Gates(tasks: seq<Task>, paced: bool): (r: seq<Step>)
    ensures |r| == |tasks|
    ensures forall i :: 0 <= i < |tasks| ==> r[i] == Gate(tasks[i], paced)
  {
    if tasks == [] then [] else Gates(tasks[..|tasks| - 1], paced) + [Gate(tasks[|tasks| - 1], paced)]
  }

  lemma GatesSnoc(tasks: seq<Task>, task: Task, paced: bool)
    ensures Gates(tasks + [task], paced) == Gates(tasks, paced) + [Gate(task, paced)]
  {
    assert (tasks + [task])[..|tasks|] == tasks;
  }

  /** A run of the first i + 1 clips is the run of the first i followed by clip i. */
  lemma ExecGatesStep(env: Env, st: State, tasks: seq<Task>, i: nat, paced: bool)
    requires i < |tasks|
    ensures Exec(env, st, Gates(tasks[..i + 1], paced)) == ThenStep(env, Exec(env, st, Gates(tasks[..i], paced)), Gate(tasks[i], paced))
  {
    assert tasks[..i + 1] == tasks[..i] + [tasks[i]];
    GatesSnoc(tasks[..i], tasks[i], paced);
    ExecSnoc(env, st, Gates(tasks[..i], paced), Gate(tasks[i], paced));
  }

  /** One word clip per key, in order. */
  function WordTasks(wordsDir: string, keys: seq<string>): (r: seq<Task>)
    ensures |r| == |keys|
    ensures forall i :: 0 <= i < |keys| ==> r[i] == WordTask(wordsDir, keys[i])
  {
    if keys == [] then [] else WordTasks(wordsDir, keys[..|keys| - 1]) + [WordTask(wordsDir, keys[|keys| - 1])]
  }

  /** The word loop: one gated clip per key, first filename wins. */
  function WordSteps(wordsDir: string, files: seq<string>): seq<Step> {
    Gates(WordTasks(wordsDir, FirstWins(Keys(files))), true)
  }

  /** Word step i speaks the i-th first-wins key, as plain text, into {key}.mp3, and then waits. */
  lemma WordStepAt(wordsDir: string, files: seq<string>, i: nat)
    requires i < |FirstWins(Keys(files))|
    ensures var k := FirstWins(Keys(files))[i];
      WordSteps(wordsDir, files)[i] == Gate(Task(k, false, Join(wordsDir, k + Mp3)), true)
  {
  }

  /** The keys the word loop has added to processedNames, one filename at a time. */
  function KeySet(files: seq<string>): set<string> {
    if files == [] then {} else KeySet(files[..|files| - 1]) + {Normalize(files[|files| - 1])}
  }

  /** processedNames holds exactly the keys of the listing. */
  lemma {:induction false} KeySetHoldsTheKeys(files: seq<string>)
    ensures forall k :: k in KeySet(files) <==> k in Keys(files)
  {
    if files != [] {
      KeySetHoldsTheKeys(files[..|files| - 1]);
    }
  }

  /** One more filename adds its key at the end. */
  lemma KeysStep(files: seq<string>, i: nat)
    requires i < |files|
    ensures Keys(files[..i + 1]) == Keys(files[..i]) + [Normalize(files[i])]
    ensures KeySet(files[..i + 1]) == KeySet(files[..i]) + {Normalize(files[i])}
  {
    assert files[..i + 1][..i] == files[..i];
  }

  /** One more key gets a word clip exactly when it has not been seen. */
  lemma WordGatesStep(wordsDir: string, keys: seq<string>, key: string)
    ensures key in keys ==>
      Gates(WordTasks(wordsDir, FirstWins(keys + [key])), true) == Gates(WordTasks(wordsDir, FirstWins(keys)), true)
    ensures key !in keys ==>
      Gates(WordTasks(wordsDir, FirstWins(keys + [key])), true)
        == Gates(WordTasks(wordsDir, FirstWins(keys)), true) + [Gate(WordTask(wordsDir, key), true)]
  {
    var order := FirstWins(keys);
    assert (keys + [key])[..|keys|] == keys;
    if key !in keys {
      assert FirstWins(keys + [key]) == order + [key];
      assert (order + [key])[..|order|] == order;
      assert WordTasks(wordsDir, order + [key]) == WordTasks(wordsDir, order) + [WordTask(wordsDir, key)];
      GatesSnoc(WordTasks(wordsDir, order), WordTask(wordsDir, key), true);
    }
  }

  /**
    One round of the word loop: when the key of filename i was seen, nothing
    happens; otherwise it joins the seen keys and its clip step runs.
   */
  lemma WordLoopStep(env: Env, st0: State, wordsDir: string, files: seq<string>, i: nat,
                     seen: set<string>, before: State, after: State)
    requires i < |files|
    requires seen == KeySet(files[..i])
    requires Run(before, false) == Exec(env, st0, WordSteps(wordsDir, files[..i]))
    requires Normalize(files[i]) in seen ==> after == before
    requires Normalize(files[i]) !in seen ==>
      Run(after, false) == ExecStep(env, before, Gate(WordTask(wordsDir, Normalize(files[i])), true))
    ensures KeySet(files[..i + 1]) == seen + {Normalize(files[i])}
    ensures Run(after, false) == Exec(env, st0, WordSteps(wordsDir, files[..i + 1]))
  {
    var key := Normalize(files[i]);
    KeysStep(files, i);
    KeySetHoldsTheKeys(files[..i]);
    WordGatesStep(wordsDir, Keys(files[..i]), key);
    if key !in seen {
      ExecSnoc(env, st0, WordSteps(wordsDir, files[..i]), Gate(WordTask(wordsDir, key), true));
    }
  }

  /**
    The question loop: the key of every filename of the listing (duplicates
    included), when it is in processed, gets one gated clip per template.
   */
  function QuestionSteps(questionDir: string, keys: seq<string>, processed: set<string>, variations: seq<string>): seq<Step> {
    if keys == [] then []
    else
      var key := keys[|keys| - 1];
      QuestionSteps(questionDir, keys[..|keys| - 1], processed, variations)
        + (if key in processed then Gates(QuestionTasks(questionDir, key, variations), true) else [])
  }

  /** One more key appends that key's question clips, when it is in processed, and nothing otherwise. */
  lemma QuestionStepsSnoc(questionDir: string, keys: seq<string>, key: string, processed: set<string>, variations: seq<string>)
    ensures QuestionSteps(questionDir, keys + [key], processed, variations) ==
      QuestionSteps(questionDir, keys, processed, variations)
        + (if key in processed then Gates(QuestionTasks(questionDir, key, variations), true) else [])
  {
    assert (keys + [key])[..|keys|] == keys;
  }

  /** One pass of the question loop extends the run by the question clips of one filename's key. */
  lemma QuestionLoopStep(env: Env, st0: State, questionDir: string, files: seq<string>, i: nat,
                         processed: set<string>, variations: seq<string>, before: State, after: State)
    requires i < |files|
    requires Run(before, false) == Exec(env, st0, QuestionSteps(questionDir, Keys(files[..i]), processed, variations))
    requires Normalize(files[i]) !in processed ==> after == before
    requires Normalize(files[i]) in processed ==>
      Run(after, false) == Exec(env, before, Gates(QuestionTasks(questionDir, Normalize(files[i]), variations), true))
    ensures Run(after, false) == Exec(env, st0, QuestionSteps(questionDir, Keys(files[..i + 1]), processed, variations))
  {
    var key := Normalize(files[i]);
    var prefix := QuestionSteps(questionDir, Keys(files[..i]), processed, variations);
    KeysStep(files, i);
    QuestionStepsSnoc(questionDir, Keys(files[..i]), key, processed, variations);
    if key in processed {
      ExecAppend(env, st0, prefix, Gates(QuestionTasks(questionDir, key, variations), true));
    } else {
      assert prefix + [] == prefix;
    }
  }

  function Setup(audioDir: string): seq<Step> {
    [EnsureDir(audioDir)] + [EnsureDir(WordsDir(audioDir))] + [EnsureDir(OtherDir(audioDir))]
  }

  function CongratsSteps(audioDir: string): seq<Step> {
    [EnsureDir(CongratsDir(audioDir))] + Gates(BankTasks(CongratsDir(audioDir), CongratulatoryMessages, "congrats_"), true)
  }

  function SupportSteps(audioDir: string): seq<Step> {
    [EnsureDir(SupportDir(audioDir))] + Gates(BankTasks(SupportDir(audioDir), SupportiveMessages, "support_"), true)
  }

  /** Every step of generateAllAudio for a listing, in the order the function takes them. */
  function Plan(audioDir: string, files: seq<string>): seq<Step> {
    Setup(audioDir)
    + WordSteps(WordsDir(audioDir), files)
    + [Gate(WordIsTask(OtherDir(audioDir)), false)]
    + CongratsSteps(audioDir)
    + SupportSteps(audioDir)
    + [EnsureDir(QuestionDir(audioDir))]
    + QuestionSteps(QuestionDir(audioDir), Keys(files), KeySet(files), QuestionVariations)
    + [EnsureDir(LettersDir(audioDir))]
    + Gates(LetterTasks(LettersDir(audioDir)), true)
  }

  /**
    generateAllAudio. listing is the result of reading the images directory,
    None when that read fails; like a failing mkdir, that failure reaches the
    outer catch and ends the run.
   */
  function RunAll(env: Env, st: State, audioDir: string, listing: Option<seq<string>>): Run {
    match listing
    case None => Run(Exec(env, st, Setup(audioDir)).state, true)
    case Some(files) => Exec(env, st, Plan(audioDir, files))
  }

  // ---- the run, phase by phase ---------------------------------------------

  lemma SetupChain(env: Env, st: State, audioDir: string)
    ensures Exec(env, st, Setup(audioDir)) ==
      ThenStep(env, ThenStep(env, ExecStep(env, st, EnsureDir(audioDir)),
        EnsureDir(WordsDir(audioDir))), EnsureDir(OtherDir(audioDir)))
  {
    var a := [EnsureDir(audioDir)];
    var b := a + [EnsureDir(WordsDir(audioDir))];
    assert a[..0] == [];
    assert Exec(env, st, a) == ThenStep(env, Exec(env, st, []), EnsureDir(audioDir));
    assert b[..1] == a;
    assert Exec(env, st, b) == ThenStep(env, Exec(env, st, a), EnsureDir(WordsDir(audioDir)));
    assert Setup(audioDir)[..2] == b;
  }

  /** The run of a plan is its phases run one after the other, each only if no earlier one ended the run. */
  lemma PlanChain(env: Env, st: State, audioDir: string, files: seq<string>)
    ensures Exec(env, st, Plan(audioDir, files)) ==
      Then(env, ThenStep(env, Then(env, ThenStep(env,
        Then(env, Then(env, ThenStep(env, Then(env,
          Exec(env, st, Setup(audioDir)),
          WordSteps(WordsDir(audioDir), files)),
          Gate(WordIsTask(OtherDir(audioDir)), false)),
          CongratsSteps(audioDir)),
          SupportSteps(audioDir)),
          EnsureDir(QuestionDir(audioDir))),
          QuestionSteps(QuestionDir(audioDir), Keys(files), KeySet(files), QuestionVariations)),
          EnsureDir(LettersDir(audioDir))),
          Gates(LetterTasks(LettersDir(audioDir)), true))
  {
    var p1 := Setup(audioDir);
    var p2 := p1 + WordSteps(WordsDir(audioDir), files);
    var p3 := p2 + [Gate(WordIsTask(OtherDir(audioDir)), false)];
    var p4 := p3 + CongratsSteps(audioDir);
    var p5 := p4 + SupportSteps(audioDir);
    var p6 := p5 + [EnsureDir(QuestionDir(audioDir))];
    var p7 := p6 + QuestionSteps(QuestionDir(audioDir), Keys(files), KeySet(files), QuestionVariations);
    var p8 := p7 + [EnsureDir(LettersDir(audioDir))];
    ExecAppend(env, st, p1, WordSteps(WordsDir(audioDir), files));
    assert p3[..|p3| - 1] == p2;
    ExecAppend(env, st, p3, CongratsSteps(audioDir));
    ExecAppend(env, st, p4, SupportSteps(audioDir));
    assert p6[..|p6| - 1] == p5;
    ExecAppend(env, st, p6, QuestionSteps(QuestionDir(audioDir), Keys(files), KeySet(files), QuestionVariations));
    assert p8[..|p8| - 1] == p7;
    ExecAppend(env, st, p8, Gates(LetterTasks(LettersDir(audioDir)), true));
  }

  // ---- properties of whole runs --------------------------------------------

  /** No run, however it ends, changes or removes a path that existed before it, and it calls the service only for paths that were absent. */
  lemma RunNeverOverwrites(env: Env, st: State, audioDir: string, listing: Option<seq<string>>)
    ensures Extends(st, RunAll(env, st, audioDir, listing).state)
    ensures var calls := RunAll(env, st, audioDir, listing).state.calls;
      forall i :: |st.calls| <= i < |calls| ==> calls[i].path !in st.store
  {
  }

  /** Idempotence of the whole pipeline: after a completed run in which every synthesis and write succeeded, a second run with the same listing makes no call, writes nothing and never waits. */
  lemma SecondRunMakesNoCalls(env1: Env, env2: Env, st: State, audioDir: string, files: seq<string>)
    requires Reliable(env1)
    requires !RunAll(env1, st, audioDir, Some(files)).aborted
    ensures var st1 := RunAll(env1, st, audioDir, Some(files)).state;
      RunAll(env2, st1, audioDir, Some(files)) == Run(st1, false)
  {
    SecondRunIsIdle(env1, env2, st, Plan(audioDir, files));
  }

  /**
    Resuming after a partial failure: rerunning with a working service
    produces every clip of the plan, leaves every clip that already existed
    as it was, and calls the service only for clips that were missing.
   */
  lemma ResumeAfterFailure(env: Env, st: State, audioDir: string, files: seq<string>)
    requires Reliable(env)
    requires !RunAll(env, st, audioDir, Some(files)).aborted
    ensures var st' := RunAll(env, st, audioDir, Some(files)).state;
      && Done(st', Plan(audioDir, files))
      && Extends(st, st')
      && forall i :: |st.calls| <= i < |st'.calls| ==> st'.calls[i].path !in st.store
  {
    ReliableRunCompletes(env, st, Plan(audioDir, files));
  }

  /** The check that a key was processed never skips a filename: with every key in processedNames, each filename gets one clip per template. */
  lemma {:induction false} QuestionStepCount(questionDir: string, keys: seq<string>, processed: set<string>, variations: seq<string>)
    requires forall k :: k in keys ==> k in processed
    ensures |QuestionSteps(questionDir, keys, processed, variations)| == |keys| * |variations|
  {
    if keys != [] {
      var init := keys[..|keys| - 1];
      var key := keys[|keys| - 1];
      assert key in processed;
      assert forall k :: k in init ==> k in processed by {
        forall k | k in init ensures k in processed { assert k in keys; }
      }
      QuestionStepCount(questionDir, init, processed, variations);
      QuestionGatesCount(questionDir, key, variations);
      var head := QuestionSteps(questionDir, init, processed, variations);
      var all := QuestionSteps(questionDir, keys, processed, variations);
      assert |all| == |head| + |variations|;
      CountStep(|all|, |head|, |init|, |variations|);
      assert |keys| == |init| + 1;
    }
  }

  /**
    In generateAllAudio the question loop's check of processedNames never
    skips a filename: every filename of the listing, duplicates included,
    gets all five question clips.
   */
  lemma QuestionFilterNeverSkips(audioDir: string, files: seq<string>)
    ensures |QuestionSteps(QuestionDir(audioDir), Keys(files), KeySet(files), QuestionVariations)| == |files| * 5
  {
    KeySetHoldsTheKeys(files);
    QuestionStepCount(QuestionDir(audioDir), Keys(files), KeySet(files), QuestionVariations);
  }

  lemma QuestionGatesCount(questionDir: string, key: string, variations: seq<string>)
    ensures |Gates(QuestionTasks(questionDir, key, variations), true)| == |variations|
  {
  }

  /** n groups of v plus one more group are n + 1 groups of v. */
  lemma CountStep(total: int, head: int, n: nat, v: nat)
    requires head == n * v && total == head + v
    ensures total == (n + 1) * v
  {
  }

  /** Two words and five templates give ten question clips, the first word's five before the second's. */
  lemma QuestionExpansionOfTwo(questionDir: string, k1: string, k2: string)
    ensures var steps := QuestionSteps(questionDir, [k1, k2], {k1, k2}, QuestionVariations);
      && |steps| == 10
      && steps == Gates(QuestionTasks(questionDir, k1, QuestionVariations), true)
                + Gates(QuestionTasks(questionDir, k2, QuestionVariations), true)
  {
    var keys := [k1, k2];
    assert keys[..1] == [k1] && [k1][..0] == [];
    var g1 := Gates(QuestionTasks(questionDir, k1, QuestionVariations), true);
    var g2 := Gates(QuestionTasks(questionDir, k2, QuestionVariations), true);
    assert QuestionSteps(questionDir, [k1], {k1, k2}, QuestionVariations) == [] + g1;
    assert [] + g1 == g1;
  }

  /**
    The word and question phases wait after each synthesis (the "the word
    is" prompt, between the words and the congratulations, is the one clip
    of the run that does not); LaterPhasesArePaced gives the same for the
    message banks and the letters, and RunPauses counts a whole run.
   */
  lemma PhasesArePaced(audioDir: string, files: seq<string>)
    ensures AllPaced(Setup(audioDir))
    ensures AllPaced(WordSteps(WordsDir(audioDir), files))
    ensures AllPaced(QuestionSteps(QuestionDir(audioDir), Keys(files), KeySet(files), QuestionVariations))
  {
    assert AllPaced(WordSteps(WordsDir(audioDir), files)) by {
      GatesArePaced(WordTasks(WordsDir(audioDir), FirstWins(Keys(files))));
    }
    assert AllPaced(QuestionSteps(QuestionDir(audioDir), Keys(files), KeySet(files), QuestionVariations)) by {
      QuestionStepsArePaced(QuestionDir(audioDir), Keys(files), KeySet(files), QuestionVariations);
    }
  }

  /** The message banks and the letters wait after each synthesis. */
  lemma LaterPhasesArePaced(audioDir: string)
    ensures AllPaced(CongratsSteps(audioDir))
    ensures AllPaced(SupportSteps(audioDir))
    ensures AllPaced(Gates(LetterTasks(LettersDir(audioDir)), true))
  {
    BankIsPaced(CongratsDir(audioDir), CongratulatoryMessages, "congrats_");
    BankIsPaced(SupportDir(audioDir), SupportiveMessages, "support_");
    GatesArePaced(LetterTasks(LettersDir(audioDir)));
  }

  /** The "the word is" prompt is never followed by a pause, whether or not it is produced. */
  lemma PromptNeverPauses(env: Env, st: State, otherDir: string)
    ensures ExecStep(env, st, Gate(WordIsTask(otherDir), false)).state.delays == st.delays
  {
    StepEffect(env, st, Gate(WordIsTask(otherDir), false));
  }

  lemma PacedConcat(a: seq<Step>, b: seq<Step>)
    requires AllPaced(a) && AllPaced(b)
    ensures AllPaced(a + b)
  {
    forall i | 0 <= i < |a + b| && (a + b)[i].Gate? ensures (a + b)[i].paced {
      if i < |a| { assert (a + b)[i] == a[i]; } else { assert (a + b)[i] == b[i - |a|]; }
    }
  }

  /** Everything after the prompt: the banks, the questions and the letters. */
  function AfterPrompt(audioDir: string, files: seq<string>): seq<Step> {
    CongratsSteps(audioDir)
    + SupportSteps(audioDir)
    + [EnsureDir(QuestionDir(audioDir))]
    + QuestionSteps(QuestionDir(audioDir), Keys(files), KeySet(files), QuestionVariations)
    + [EnsureDir(LettersDir(audioDir))]
    + Gates(LetterTasks(LettersDir(audioDir)), true)
  }

  lemma PlanAroundPrompt(audioDir: string, files: seq<string>)
    ensures Plan(audioDir, files) ==
      (Setup(audioDir) + WordSteps(WordsDir(audioDir), files)) + [Gate(WordIsTask(OtherDir(audioDir)), false)]
        + AfterPrompt(audioDir, files)
  {
    Regroup(Setup(audioDir), WordSteps(WordsDir(audioDir), files), [Gate(WordIsTask(OtherDir(audioDir)), false)],
      CongratsSteps(audioDir), SupportSteps(audioDir), [EnsureDir(QuestionDir(audioDir))],
      QuestionSteps(QuestionDir(audioDir), Keys(files), KeySet(files), QuestionVariations),
      [EnsureDir(LettersDir(audioDir))], Gates(LetterTasks(LettersDir(audioDir)), true));
  }

  lemma Regroup(a: seq<Step>, b: seq<Step>, c: seq<Step>, d: seq<Step>, e: seq<Step>,
                f: seq<Step>, g: seq<Step>, h: seq<Step>, i: seq<Step>)
    ensures a + b + c + d + e + f + g + h + i == (a + b) + c + (d + e + f + g + h + i)
  {
  }

  lemma AfterPromptIsPaced(audioDir: string, files: seq<string>)
    ensures AllPaced(AfterPrompt(audioDir, files))
  {
    LaterPhasesArePaced(audioDir);
    PhasesArePaced(audioDir, files);
    PacedChain(CongratsSteps(audioDir), SupportSteps(audioDir), QuestionDir(audioDir),
      QuestionSteps(QuestionDir(audioDir), Keys(files), KeySet(files), QuestionVariations),
      LettersDir(audioDir), Gates(LetterTasks(LettersDir(audioDir)), true));
  }

  lemma PacedChain(c: seq<Step>, s: seq<Step>, qd: string, q: seq<Step>, ld: string, l: seq<Step>)
    requires AllPaced(c) && AllPaced(s) && AllPaced(q) && AllPaced(l)
    ensures AllPaced(c + s + [EnsureDir(qd)] + q + [EnsureDir(ld)] + l)
  {
    PacedConcat(c, s);
    PacedConcat(c + s, [EnsureDir(qd)]);
    PacedConcat(c + s + [EnsureDir(qd)], q);
    PacedConcat(c + s + [EnsureDir(qd)] + q, [EnsureDir(ld)]);
    PacedConcat(c + s + [EnsureDir(qd)] + q + [EnsureDir(ld)], l);
  }

  /**
    Pauses over a whole run of generateAllAudio: one per synthesis call,
    except that the "the word is" prompt, when it is produced, is not
    followed by one; when the prompt already exists, the counts are equal.
   */
  lemma RunPauses(env: Env, st: State, audioDir: string, listing: Option<seq<string>>)
    ensures var r := RunAll(env, st, audioDir, listing).state;
      && r.delays - st.delays <= |r.calls| - |st.calls| <= r.delays - st.delays + 1
      && (WordIsTask(OtherDir(audioDir)).path in st.store ==> r.delays - st.delays == |r.calls| - |st.calls|)
  {
    var setup := Setup(audioDir);
    assert AllPaced(setup) by { PhasesArePaced(audioDir, []); }
    if listing.None? {
      PacedDelays(env, st, setup);
    } else {
      var files := listing.value;
      var before := setup + WordSteps(WordsDir(audioDir), files);
      var prompt := Gate(WordIsTask(OtherDir(audioDir)), false);
      var after := AfterPrompt(audioDir, files);
      PhasesArePaced(audioDir, files);
      PacedConcat(setup, WordSteps(WordsDir(audioDir), files));
      AfterPromptIsPaced(audioDir, files);
      PlanAroundPrompt(audioDir, files);
      ExecAppend(env, st, before + [prompt], after);
      ExecSnoc(env, st, before, prompt);
      var r1 := Exec(env, st, before);
      PacedDelays(env, st, before);
      if !r1.aborted {
        var r2 := ExecStep(env, r1.state, prompt);
        StepEffect(env, r1.state, prompt);
        PacedDelays(env, r2.state, after);
        ExtendsTransitive(st, r1.state, r2.state);
      }
    }
  }

  /** A message-bank phase: its directory step, then one waiting clip per message. */
  lemma BankIsPaced(dir: string, items: seq<string>, prefix: string)
    ensures AllPaced([EnsureDir(dir)] + Gates(BankTasks(dir, items, prefix), true))
  {
    var steps := Gates(BankTasks(dir, items, prefix), true);
    GatesArePaced(BankTasks(dir, items, prefix));
    PacedAfterDir(dir, steps);
  }

  lemma PacedAfterDir(dir: string, steps: seq<Step>)
    requires AllPaced(steps)
    ensures AllPaced([EnsureDir(dir)] + steps)
  {
    var all := [EnsureDir(dir)] + steps;
    forall i | 0 <= i < |all| && all[i].Gate? ensures all[i].paced {
      assert i > 0 ==> all[i] == steps[i - 1];
    }
  }

  lemma {:induction false} QuestionStepsArePaced(questionDir: string, keys: seq<string>, processed: set<string>, variations: seq<string>)
    ensures AllPaced(QuestionSteps(questionDir, keys, processed, variations))
  {
    if keys != [] {
      var init := keys[..|keys| - 1];
      QuestionStepsArePaced(questionDir, init, processed, variations);
      var key := keys[|keys| - 1];
      var tail := if key in processed then Gates(QuestionTasks(questionDir, key, variations), true) else [];
      var all := QuestionSteps(questionDir, keys, processed, variations);
      assert all == QuestionSteps(questionDir, init, processed, variations) + tail;
      forall i | 0 <= i < |all| && all[i].Gate? ensures all[i].paced {
        var head := QuestionSteps(questionDir, init, processed, variations);
        if i < |head| { assert all[i] == head[i]; } else { assert all[i] == tail[i - |head|]; }
      }
    }
  }

  lemma GatesArePaced(tasks: seq<Task>)
    ensures AllPaced(Gates(tasks, true))
  {
  }
}
