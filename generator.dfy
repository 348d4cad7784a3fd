/**
  scripts/generateAudio.js as the program runs it: one object holds the file
  store, the history of synthesis requests and the pauses taken, and each
  function of the script becomes a method that updates them step by step.
  Every method is proved against the run semantics of module Store, so the
  properties proved there about Exec and RunAll hold of the program.
 */
module Generator {
  import opened Optional
  import opened Names
  import opened Synthesis
  import opened Expanders
  import opened Store
  import opened Pipeline

  class AudioGenerator {
    /** The speech service, and the paths on which writeFile and mkdir fail. */
    const env: Env
    /** Every path that exists, with what is there. */
    var store: map<string, Entry>
    /** Every request sent to the speech service, in order. */
    var calls: seq<Call>
    /** The number of 1000 ms pauses taken. */
    var delays: nat

    function Snapshot(): State
      reads this
    {
      State(store, calls, delays)
    }

    constructor (env: Env, st: State)
      ensures this.env == env && Snapshot() == st
    {
      this.env := env;
      store := st.store;
      calls := st.calls;
      delays := st.delays;
    }

    /** directoryExists: whether anything, file or directory, is at the path. */
    method DirectoryExists(path: string) returns (b: bool)
      ensures b <==> path in Snapshot().store
    {
      b := path in store;
    }

    /** ensureDirectoryExists: ok is false when mkdir failed, an error the caller does not catch. */
    method EnsureDirectoryExists(dirPath: string) returns (ok: bool)
      modifies this
      ensures Run(Snapshot(), !ok) == ExecStep(env, old(Snapshot()), EnsureDir(dirPath))
    {
      ok := true;
      var present := DirectoryExists(dirPath);
      if !present {
        if dirPath in env.unmakeable {
          ok := false;
        } else {
          store := store[dirPath := Directory];
        }
      }
    }

    /** generateAudioFile: one request; the file is written only when the service answered and the write succeeded. */
    method GenerateAudioFile(text: string, outputPath: string, useSsml: bool)
      modifies this
      ensures Snapshot() == Synthesize(env, old(Snapshot()), Task(text, useSsml, outputPath))
    {
      var request := SynthesisRequest(text, useSsml);
      var reply := env.synth(|calls|, request);
      calls := calls + [Call(outputPath, request)];
      match reply
      case Audio(audioContent) =>
        if outputPath !in env.unwritable {
          store := store[outputPath := File(audioContent)];
        }
      case ServiceError =>
    }

    /**
      The pattern every loop of the script repeats: nothing happens when the
      output path exists; otherwise the clip is generated and, when paced,
      followed by a 1000 ms pause.
     */
    method ProduceClip(text: string, outputPath: string, useSsml: bool, paced: bool)
      modifies this
      ensures Run(Snapshot(), false) == ExecStep(env, old(Snapshot()), Gate(Task(text, useSsml, outputPath), paced))
    {
      var present := DirectoryExists(outputPath);
      if !present {
        GenerateAudioFile(text, outputPath, useSsml);
        if paced {
          delays := delays + 1;
        }
      }
    }

    /** processBatchAudio: the directory, then message i as {prefix}{i+1}.mp3, each new clip followed by a pause. */
    method ProcessBatchAudio(directory: string, items: seq<string>, namePrefix: string) returns (ok: bool)
      modifies this
      ensures Run(Snapshot(), !ok) ==
        Exec(env, old(Snapshot()), [EnsureDir(directory)] + Gates(BankTasks(directory, items, namePrefix), true))
    {
      ghost var st0 := Snapshot();
      ghost var tasks := BankTasks(directory, items, namePrefix);
      ExecSnoc(env, st0, [], EnsureDir(directory));
      assert [] + [EnsureDir(directory)] == [EnsureDir(directory)];
      ExecAppend(env, st0, [EnsureDir(directory)], Gates(tasks, true));
      ok := EnsureDirectoryExists(directory);
      if !ok {
        return;
      }
      ghost var st1 := Snapshot();
      assert tasks[..0] == [];
      var i := 0;
      while i < |items|
        invariant 0 <= i <= |items|
        invariant Run(Snapshot(), false) == Exec(env, st1, Gates(tasks[..i], true))
      {
        var outputPath := Join(directory, namePrefix + Decimal(i + 1) + Mp3);
        ProduceClip(items[i], outputPath, false, true);
        assert Task(items[i], false, outputPath) == tasks[i];
        ExecGatesStep(env, st1, tasks, i, true);
        i := i + 1;
      }
      assert tasks[..|items|] == tasks;
    }

    /** processQuestionVariations: template i with the word put in, as {word}_question_{i+1}.mp3, each new clip followed by a pause. */
    method ProcessQuestionVariations(questionDir: string, baseName: string, variations: seq<string>)
      modifies this
      ensures Run(Snapshot(), false) ==
        Exec(env, old(Snapshot()), Gates(QuestionTasks(questionDir, baseName, variations), true))
    {
      ghost var st0 := Snapshot();
      ghost var tasks := QuestionTasks(questionDir, baseName, variations);
      assert tasks[..0] == [];
      var i := 0;
      while i < |variations|
        invariant 0 <= i <= |variations|
        invariant Run(Snapshot(), false) == Exec(env, st0, Gates(tasks[..i], true))
      {
        var questionText := ReplaceFirst(variations[i], WordPlaceholder, baseName);
        var outputPath := Join(questionDir, baseName + "_question_" + Decimal(i + 1) + Mp3);
        ProduceClip(questionText, outputPath, false, true);
        ExecGatesStep(env, st0, tasks, i, true);
        i := i + 1;
      }
      assert tasks[..|variations|] == tasks;
    }

    /**
      One round of the word loop of generateAllAudio: the filename's key is
      skipped when it is already in processedNames; otherwise it is added
      and gets its clip unless the file exists.
     */
    method ProcessWordFile(wordsDir: string, file: string, processedNames: set<string>) returns (updated: set<string>)
      modifies this
      ensures updated == processedNames + {Normalize(file)}
      ensures Normalize(file) in processedNames ==> Snapshot() == old(Snapshot())
      ensures Normalize(file) !in processedNames ==>
        Run(Snapshot(), false) == ExecStep(env, old(Snapshot()), Gate(WordTask(wordsDir, Normalize(file)), true))
    {
      var baseName := Normalize(file);
      updated := processedNames;
      if baseName in processedNames {
        return;
      }
      updated := processedNames + {baseName};
      var outputPath := Join(wordsDir, baseName + Mp3);
      ProduceClip(baseName, outputPath, false, true);
    }

    /** The word loop of generateAllAudio: keys in the order of their first filenames, each clip made unless it exists. */
    method ProcessWords(wordsDir: string, files: seq<string>) returns (processedNames: set<string>)
      modifies this
      ensures processedNames == KeySet(files)
      ensures Run(Snapshot(), false) == Exec(env, old(Snapshot()), WordSteps(wordsDir, files))
    {
      ghost var st0 := Snapshot();
      processedNames := {};
      assert files[..0] == [];
      var i := 0;
      while i < |files|
        invariant 0 <= i <= |files|
        invariant processedNames == KeySet(files[..i])
        invariant Run(Snapshot(), false) == Exec(env, st0, WordSteps(wordsDir, files[..i]))
      {
        ghost var seen, before := processedNames, Snapshot();
        processedNames := ProcessWordFile(wordsDir, files[i], processedNames);
        WordLoopStep(env, st0, wordsDir, files, i, seen, before, Snapshot());
        i := i + 1;
      }
      assert files[..|files|] == files;
    }

    /** One filename of the question loop: its key gets the question clips when the key is in processedNames. */
    method ProcessQuestionFile(questionDir: string, file: string, processedNames: set<string>, variations: seq<string>)
      modifies this
      ensures Normalize(file) !in processedNames ==> Snapshot() == old(Snapshot())
      ensures Normalize(file) in processedNames ==>
        Run(Snapshot(), false) == Exec(env, old(Snapshot()), Gates(QuestionTasks(questionDir, Normalize(file), variations), true))
    {
      var baseName := Normalize(file);
      if baseName in processedNames {
        ProcessQuestionVariations(questionDir, baseName, variations);
      }
    }

    /** The question loop of generateAllAudio: every filename whose key is in processedNames gets its templates. */
    method ProcessQuestions(questionDir: string, files: seq<string>, processedNames: set<string>, variations: seq<string>)
      modifies this
      ensures Run(Snapshot(), false) ==
        Exec(env, old(Snapshot()), QuestionSteps(questionDir, Keys(files), processedNames, variations))
    {
      ghost var st0 := Snapshot();
      assert files[..0] == [];
      var i := 0;
      while i < |files|
        invariant 0 <= i <= |files|
        invariant Run(Snapshot(), false) == Exec(env, st0, QuestionSteps(questionDir, Keys(files[..i]), processedNames, variations))
      {
        ghost var before := Snapshot();
        ProcessQuestionFile(questionDir, files[i], processedNames, variations);
        QuestionLoopStep(env, st0, questionDir, files, i, processedNames, variations, before, Snapshot());
        i := i + 1;
      }
      assert files[..|files|] == files;
    }

    /** One letter: its spoken name from the table, as SSML when the name starts with <speak>, into {letter}_.mp3. */
    method ProcessLetter(lettersDir: string, letter: char)
      requires letter in LetterNames
      modifies this
      ensures Run(Snapshot(), false) == ExecStep(env, old(Snapshot()), Gate(LetterTask(lettersDir, letter), true))
    {
      var outputPath := Join(lettersDir, [letter] + "_.mp3");
      var letterName := LetterNames[letter];
      var useSsml := StartsWith(letterName, SsmlPrefix);
      ProduceClip(letterName, outputPath, useSsml, true);
    }

    /** The letter loop: letter c's name from the table, SSML when it starts with <speak>, saved as {c}_.mp3. */
    method ProcessLetters(lettersDir: string)
      modifies this
      ensures Run(Snapshot(), false) == Exec(env, old(Snapshot()), Gates(LetterTasks(lettersDir), true))
    {
      ghost var st0 := Snapshot();
      ghost var tasks := LetterTasks(lettersDir);
      assert tasks[..0] == [];
      var i := 0;
      while i < |Alphabet|
        invariant 0 <= i <= |Alphabet|
        invariant Run(Snapshot(), false) == Exec(env, st0, Gates(tasks[..i], true))
      {
        ProcessLetter(lettersDir, Alphabet[i]);
        ExecGatesStep(env, st0, tasks, i, true);
        i := i + 1;
      }
      assert tasks[..|Alphabet|] == tasks;
    }

    /**
      generateAllAudio. listing is what reading the images directory gave,
      None when the read failed. completed is false exactly when an error
      reached the outer catch and ended the run.
     */
    method GenerateAllAudio(audioDir: string, listing: Option<seq<string>>) returns (completed: bool)
      modifies this
      ensures Run(Snapshot(), !completed) == RunAll(env, old(Snapshot()), audioDir, listing)
    {
      ghost var st0 := Snapshot();
      var wordsDir := WordsDir(audioDir);
      var otherDir := OtherDir(audioDir);
      var congratsDir := CongratsDir(audioDir);
      var supportDir := SupportDir(audioDir);
      var questionDir := QuestionDir(audioDir);
      var lettersDir := LettersDir(audioDir);

      // An error thrown by any phase reaches the outer catch: once completed
      // is false, no later phase runs.
      completed := EnsureDirectoryExists(audioDir);
      if completed {
        completed := EnsureDirectoryExists(wordsDir);
      }
      if completed {
        completed := EnsureDirectoryExists(otherDir);
      }
      SetupChain(env, st0, audioDir);
      ghost var run := Exec(env, st0, Setup(audioDir));
      if listing.None? {
        completed := false;
        return;
      }
      var files := listing.value;

      var processedNames: set<string> := {};
      if completed {
        processedNames := ProcessWords(wordsDir, files);
      }
      run := Then(env, run, WordSteps(wordsDir, files));
      assert run == Run(Snapshot(), !completed);

      if completed {
        ProduceClip(TheWordIs, Join(otherDir, "the_word_is.mp3"), false, false);
      }
      run := ThenStep(env, run, Gate(WordIsTask(otherDir), false));
      assert run == Run(Snapshot(), !completed);

      if completed {
        completed := ProcessBatchAudio(congratsDir, CongratulatoryMessages, "congrats_");
      }
      run := Then(env, run, CongratsSteps(audioDir));
      assert run == Run(Snapshot(), !completed);

      if completed {
        completed := ProcessBatchAudio(supportDir, SupportiveMessages, "support_");
      }
      run := Then(env, run, SupportSteps(audioDir));
      assert run == Run(Snapshot(), !completed);

      if completed {
        completed := EnsureDirectoryExists(questionDir);
      }
      run := ThenStep(env, run, EnsureDir(questionDir));
      assert run == Run(Snapshot(), !completed);

      if completed {
        ProcessQuestions(questionDir, files, processedNames, QuestionVariations);
      }
      run := Then(env, run, QuestionSteps(questionDir, Keys(files), KeySet(files), QuestionVariations));
      assert run == Run(Snapshot(), !completed);

      if completed {
        completed := EnsureDirectoryExists(lettersDir);
      }
      run := ThenStep(env, run, EnsureDir(lettersDir));
      assert run == Run(Snapshot(), !completed);

      if completed {
        ProcessLetters(lettersDir);
      }
      run := Then(env, run, Gates(LetterTasks(lettersDir), true));
      PlanChain(env, st0, audioDir, files);
    }
  }
}
