# generateAudio.js, modelled and verified in Dafny

`scripts/generateAudio.js` builds the spoken-audio catalogue of the alphazed
phonics game. It produces:

- one MP3 per picture word (the key comes from the image filename);
- a "the word is" prompt;
- two numbered banks of encouragement messages;
- five "which letter does … begin with?" questions per word;
- one clip per letter a–z, spoken from a respelling table.

Every clip is gated on existence. If the output path already exists it is skipped. Otherwise the
text goes to the speech service, the bytes are written, and the script pauses
for a second. Because of this gate the script can be re-run after a partial
failure and only fills the gaps.

The model has six modules:

- `Names` (names.dfy): the filename normaliser (`toLowerCase`, removal of the
  first `(digits)` counter, removal of a trailing `.ext`, `trim`) and
  first-wins deduplication (`processedNames`). `NameLemmas` holds what is
  proved about them.
- `Synthesis` (synthesis.dfy): the request sent to the speech service, with
  plain text or SSML, voice `en-GB-Chirp3-HD-Zephyr` and encoding MP3.
- `Expanders` (expanders.dfy): the rules that fix each clip's text and path.
  These are the word clip, the prompt, the message banks with `{prefix}{i+1}.mp3`,
  the question templates with the first `$word` replaced, and the letter table
  with `{letter}_.mp3` and the `<speak>` test.
- `Store` (store.dfy): the semantics of a run. The file store is a map from
  path to entry. A run is a list of steps: make sure a directory exists, or
  produce a clip unless its path exists. `Exec` runs the steps in order and
  stops at the first error that escapes to the outer `catch`.
- `Pipeline` (pipeline.dfy): the whole of `generateAllAudio` as one plan of
  steps in the script's category order, `RunAll`, and the properties of
  whole runs.
- `Generator` (generator.dfy): class `AudioGenerator`. It holds the store, the
  history of service requests and the pause count as fields. Each function of
  the script is a method that updates them. Each method is proved equal to the
  run semantics of `Store`/`Pipeline`, so the properties proved there hold of
  the program's loops.

The outside world is a value `Env`:

- the speech service's reply to the n-th request (audio bytes or an error);
- the paths where `writeFile` fails;
- the directories where `mkdir` fails.

The image listing is a parameter. It is `None` when `readdir` fails.

Three details of the code are easy to miss; the model follows the code:

- Letter files are named `{letter}_.mp3`, with an underscore.
- A directory that cannot be created (or an unreadable image directory) is
  not confined to its category. The error escapes to the single outer
  `catch` of `generateAllAudio` and ends the whole run.
- The "the word is" prompt is the one clip not followed by a pause.

## Model

| member | source | states |
|---|---|---|
| Synthesis.SynthesisRequest | scripts/generateAudio.js:10-18 | the spoken text can be read back from the request, the input is SSML exactly when asked for, and language, voice and encoding are the fixed en-GB / Chirp3-HD-Zephyr / MP3 |
| Synthesis.SynthesisRequestInjective | scripts/generateAudio.js:10-18 | two clips get the same request if and only if they have the same text and the same SSML flag |
| Names.ToLower | scripts/generateAudio.js:108 | same length; no upper-case letter is left; non-upper characters are kept; upper-case ASCII/Latin-1 letters move to their lower-case partner |
| Names.CounterClose | scripts/generateAudio.js:109 | finds the `)` closing a `(digits)` group opened at i, and finds none exactly when no such group starts there |
| Names.FirstCounter | scripts/generateAudio.js:109 | returns the leftmost `(digits)` match at or after a position, or none when there is no match |
| Names.RemoveFirstCounter | scripts/generateAudio.js:109 | with no `(digits)` group the name is unchanged; otherwise exactly the leftmost group is cut out |
| Names.LastDot | scripts/generateAudio.js:110 | the position of the last `.`, or none when there is no dot |
| Names.StripExtension | scripts/generateAudio.js:110 | when the name ends in `.` plus one or more characters other than `.` and `/`, exactly that suffix is removed; otherwise the name is kept; the result is a prefix of the name |
| Names.TrimStart | scripts/generateAudio.js:111 | drops exactly the leading ECMAScript whitespace |
| Names.TrimEnd | scripts/generateAudio.js:111 | drops exactly the trailing ECMAScript whitespace |
| Names.Trim | scripts/generateAudio.js:111 | the result is a slice of the input with only whitespace removed at both ends, and it neither starts nor ends with whitespace |
| Names.Normalize | scripts/generateAudio.js:108-111 | the key is never longer than the filename and has no surrounding whitespace |
| Names.Keys | scripts/generateAudio.js:106-111 | one key per filename of the listing |
| Names.KeysInListingOrder | scripts/generateAudio.js:106-111 | key i is the normalised form of filename i, so the keys follow the listing order |
| Names.FirstWins | scripts/generateAudio.js:113-118 | the kept keys are exactly the keys of the listing, without duplicates, and never more than the listing |
| NameLemmas.NormalizeIsLowerCase | scripts/generateAudio.js:108-111 | no key contains an upper-case letter: the stages after toLowerCase only remove characters |
| NameLemmas.PlainNameIsItsOwnKey | scripts/generateAudio.js:108-111 | a lower-case name without `(`, `.` or surrounding whitespace is its own key |
| NameLemmas.NormalizeExamples | scripts/generateAudio.js:108-111 | cat.png, cat(1).png and Cat(2).jpg all give the key "cat" |
| NameLemmas.DotFileHasEmptyKey | scripts/generateAudio.js:108-111 | a lower-case dot-file such as `.ds_store` is all extension and gives the empty key |
| NameLemmas.FirstWinsKeepsFirstOrder | scripts/generateAudio.js:106-118 | the word loop handles keys in the order of their first filenames |
| NameLemmas.DeduplicationExample | scripts/generateAudio.js:104-118 | three filenames of one picture produce the single word "cat" |
| Expanders.Decimal | scripts/generateAudio.js:56 | the numeral of a position is a non-empty string of digits whose first digit is 0 exactly for the number 0, so there is no leading zero |
| Expanders.DecimalRoundTrip | scripts/generateAudio.js:56 | the numeral written into a file name reads back as the number |
| Expanders.DecimalInjective | scripts/generateAudio.js:56 | different numbers give different numerals |
| Expanders.WordTask | scripts/generateAudio.js:120-129 | the clip of a word key: the key itself is spoken, as plain text, into `words/{key}.mp3` |
| Expanders.WordIsTask | scripts/generateAudio.js:135-144 | the prompt clip: "the word is", as plain text, into `other/the_word_is.mp3` |
| Expanders.WordPathsDistinct | scripts/generateAudio.js:120 | different keys never share a word file |
| Expanders.BankTasks | scripts/generateAudio.js:52-66 | one clip per bank entry, in array order, spoken as written and never as SSML, entry i saved at `{prefix}{i+1}.mp3` in the bank's directory |
| Expanders.BankPathsDistinct | scripts/generateAudio.js:56 | two entries of a bank never share a file |
| Expanders.IndexOf | scripts/generateAudio.js:71 | the first occurrence of the pattern at or after a position, or none when it does not occur |
| Expanders.ReplaceFirst | scripts/generateAudio.js:71 | with no occurrence the template is unchanged; otherwise exactly the first occurrence is replaced |
| Expanders.ReplaceAfterPlainPrefix | scripts/generateAudio.js:71 | when the text before the first `$word` holds no `$`, that occurrence is the one replaced |
| Expanders.QuestionTasks | scripts/generateAudio.js:69-82 | one plain-text clip per template, in template order: template i with its first `$word` replaced by the word, saved as `{word}_question_{i+1}.mp3` |
| Expanders.QuestionTextOfTemplate | scripts/generateAudio.js:70-72 | template i, written pre + `$word` + post, is spoken as pre + word + post and saved as `{word}_question_{i+1}.mp3` |
| Expanders.FirstQuestionText | scripts/generateAudio.js:203-209 | the first question for a word is "Which letter does <word> begin with?" |
| Expanders.QuestionPathsDistinct | scripts/generateAudio.js:72 | the templates of one word never share a file |
| Expanders.LetterTableCoversAlphabet | scripts/generateAudio.js:229-258 | the letter table has an entry for exactly the letters a–z |
| Expanders.LetterTask | scripts/generateAudio.js:258-267 | the clip of one letter: its table entry is spoken, as SSML exactly when the entry starts with `<speak>`, into `{letter}_.mp3` |
| Expanders.LetterTasks | scripts/generateAudio.js:258-267 | 26 clips in alphabet order; letter i is spoken as its table entry, as SSML exactly when that entry starts with `<speak>`, and saved as `{letter}_.mp3` |
| Expanders.LetterOverrides | scripts/generateAudio.js:229-267 | no letter is spoken as its bare character; z is spoken "Zed"; no table entry starts with `<speak>`, so every letter goes as plain text; letter c is saved as `{c}_.mp3` |
| Expanders.LetterPathsDistinct | scripts/generateAudio.js:260 | two letters never share a file |
| Store.Synthesize | scripts/generateAudio.js:10-49 | exactly one request is appended: the request built from the text and the SSML flag, for that path; no other path changes; a service error or a failed write leaves the store as it was; audio to a writable path is written there |
| Store.ExecStep | scripts/generateAudio.js:52-66 | an existing target is skipped with nothing changed, and a clip step never ends the run |
| Store.StepEffect | scripts/generateAudio.js:34-64 | one step keeps every path, entry and request; only its own target can appear; a missing clip makes exactly one request, plus one pause when paced; only a directory that is missing and cannot be made ends the run |
| Store.Exec | scripts/generateAudio.js:55-65 | a run keeps every existing path and entry and every earlier request; it requests only paths that were absent when it started; it pauses at most once per request |
| Store.ExecAppend | scripts/generateAudio.js:97-272 | running two step lists one after the other is running the first, then the second unless the first ended the run |
| Store.ReliableRunCompletes | scripts/generateAudio.js:41-65 | when every request and write succeeds and the run is not ended, every target of the run exists afterwards |
| Store.DoneRunIsIdle | scripts/generateAudio.js:58-64 | when every target exists, a run changes nothing: no request, no write, no pause, no error |
| Store.SecondRunIsIdle | scripts/generateAudio.js:58-64 | after a completed run in which every request and write succeeded, repeating it changes nothing |
| Store.PacedDelays | scripts/generateAudio.js:58-62 | when every clip step is paced, the run pauses exactly once per request |
| Pipeline.Setup | scripts/generateAudio.js:97-100 | the three directory steps for the audio, words and other directories, in that order |
| Pipeline.WordTasks | scripts/generateAudio.js:106-133 | one clip per key, in key order, clip i being the word clip of key i |
| Pipeline.WordSteps | scripts/generateAudio.js:104-133 | the word loop: one paced, existence-gated clip step per first-wins key of the listing |
| Pipeline.WordStepAt | scripts/generateAudio.js:120-132 | word step i speaks the i-th first-wins key as plain text into `words/{key}.mp3` and then waits |
| Pipeline.KeySet | scripts/generateAudio.js:104-118 | processedNames after the word loop has seen a prefix of the listing: the set of the keys of those filenames |
| Pipeline.QuestionSteps | scripts/generateAudio.js:211-222 | the question loop: for each filename, duplicates included, the paced question steps of its key when the key is in processedNames |
| Pipeline.CongratsSteps | scripts/generateAudio.js:146-171 | the congratulations phase: its directory step, then one paced step per message, numbered from 1 |
| Pipeline.SupportSteps | scripts/generateAudio.js:173-198 | the support phase: its directory step, then one paced step per message, numbered from 1 |
| Pipeline.Plan | scripts/generateAudio.js:97-272 | every step of generateAllAudio in the script's order: setup, words, the unpaced prompt, congratulations, support, the question directory and loop, the letter directory and letters |
| Pipeline.RunAll | scripts/generateAudio.js:84-277 | generateAllAudio: when the images directory cannot be read, the run ends after the setup; otherwise it is the run of Plan |
| Pipeline.KeySetHoldsTheKeys | scripts/generateAudio.js:104-118 | processedNames holds exactly the keys of the listing |
| Pipeline.WordLoopStep | scripts/generateAudio.js:106-133 | one round of the word loop adds the filename's key to processedNames, and runs that key's clip step exactly when the key is new |
| Pipeline.QuestionLoopStep | scripts/generateAudio.js:213-222 | one round of the question loop runs the question clip steps of the filename's key exactly when that key is in processedNames |
| Pipeline.SetupChain | scripts/generateAudio.js:97-100 | the setup is the three directory steps, each run only if the previous one did not end the run |
| Pipeline.PlanChain | scripts/generateAudio.js:97-272 | a run of the plan is its phases one after another (words, prompt, congratulations, support, questions, letters), each run only if no earlier one ended the run |
| Pipeline.RunNeverOverwrites | scripts/generateAudio.js:84-277 | however generateAllAudio ends, every path that existed before keeps its entry, and requests are made only for paths that were absent |
| Pipeline.SecondRunMakesNoCalls | scripts/generateAudio.js:84-277 | after a completed run in which every request and write succeeded, a second run with the same listing makes no request, writes nothing, never pauses and does not fail |
| Pipeline.ResumeAfterFailure | scripts/generateAudio.js:84-277 | re-running with a working service after a partial failure produces every clip of the plan, keeps every existing clip, and requests only missing ones |
| Pipeline.QuestionStepCount | scripts/generateAudio.js:211-222 | when every key is in processedNames, each filename gets one clip step per template |
| Pipeline.QuestionFilterNeverSkips | scripts/generateAudio.js:213-222 | in generateAllAudio the processedNames check of the question loop never skips a filename: the listing gets 5 question steps per filename, duplicates included |
| Pipeline.QuestionExpansionOfTwo | scripts/generateAudio.js:211-222 | two words give ten question steps, all of the first word's before the second's |
| Pipeline.PhasesArePaced | scripts/generateAudio.js:106-133 | the setup, the word loop and the question loop pause after every request |
| Pipeline.BankIsPaced | scripts/generateAudio.js:52-66 | a message-bank phase pauses after every request |
| Pipeline.QuestionStepsArePaced | scripts/generateAudio.js:69-82 | the question clips pause after every request |
| Pipeline.GatesArePaced | scripts/generateAudio.js:259-272 | a list of paced clip steps (the letters among them) pauses after every request |
| Pipeline.LaterPhasesArePaced | scripts/generateAudio.js:146-272 | both message banks and the letter phase pause after every request |
| Pipeline.PromptNeverPauses | scripts/generateAudio.js:137-144 | the "the word is" prompt step never adds a pause, whether or not the clip is produced |
| Pipeline.AfterPromptIsPaced | scripts/generateAudio.js:146-272 | every phase after the prompt (banks, questions, letters) pauses after every request |
| Pipeline.RunPauses | scripts/generateAudio.js:84-277 | over a whole run, the pauses equal the requests or fall one short (the unpaced prompt), and they are equal when the prompt already existed |
| Generator.AudioGenerator.DirectoryExists | scripts/generateAudio.js:25-32 | true exactly when something, file or directory, is at the path |
| Generator.AudioGenerator.EnsureDirectoryExists | scripts/generateAudio.js:34-39 | the new state and the failure flag are those of one directory step |
| Generator.AudioGenerator.GenerateAudioFile | scripts/generateAudio.js:41-49 | the new state is that of one synthesis of the text to the path (see Store.Synthesize) |
| Generator.AudioGenerator.ProduceClip | scripts/generateAudio.js:58-64 | the new state is that of one existence-gated clip step |
| Generator.AudioGenerator.ProcessBatchAudio | scripts/generateAudio.js:52-66 | the new state and the failure flag are those of the run of the directory step followed by the bank's clip steps |
| Generator.AudioGenerator.ProcessQuestionVariations | scripts/generateAudio.js:69-82 | the new state is that of the run of the word's question clip steps |
| Generator.AudioGenerator.ProcessWordFile | scripts/generateAudio.js:107-132 | the filename's key ends up in processedNames; when it was already there nothing changes, otherwise the new state is that of the key's word clip step |
| Generator.AudioGenerator.ProcessWords | scripts/generateAudio.js:104-133 | processedNames ends as the set of the listing's keys, and the new state is that of the run of the word steps (first filename wins) |
| Generator.AudioGenerator.ProcessQuestionFile | scripts/generateAudio.js:214-221 | when the filename's key is in processedNames the new state is that of the key's question clip steps, and otherwise nothing changes |
| Generator.AudioGenerator.ProcessQuestions | scripts/generateAudio.js:211-222 | the new state is that of the run of the question steps of every filename whose key is in processedNames |
| Generator.AudioGenerator.ProcessLetter | scripts/generateAudio.js:259-271 | the new state is that of the clip step of the letter's table entry, saved as `{letter}_.mp3` |
| Generator.AudioGenerator.ProcessLetters | scripts/generateAudio.js:258-272 | the new state is that of the run of the 26 letter clip steps |
| Generator.AudioGenerator.GenerateAllAudio | scripts/generateAudio.js:84-277 | the new state, and whether the run was ended by an error, are those of RunAll; so RunNeverOverwrites, SecondRunMakesNoCalls and ResumeAfterFailure hold of the program |

## Left out

- The Google Cloud text-to-speech client is not modelled. Its reply to the n-th request is a function in `Env`, either audio bytes or an error, so quota, network and rejection failures are all one error.
- File system I/O is replaced by a map from path to entry. `fs.access` is taken as "something is at the path". Failures other than non-existence, such as permissions, are not distinguished.
- A `writeFile` that fails is modelled as leaving no file. Partially written files are not modelled.
- `path.join` is modelled as concatenation with `/`. Its normalisation of `..`, `.` and repeated slashes is not modelled.
- The image and audio directories come from `process.cwd()` and `import.meta.url`. They are parameters here.
- `mkdir` with `recursive: true` is modelled as creating only the named directory. Missing parents are not modelled.
- The one-second pause is only counted (`delays`). Wall-clock time is not modelled.
- Console logging is left out.
- `dotenv` configuration is left out.
- The asynchronous `await` ordering is left out. The script awaits every call in sequence, so the run is sequential.
- Names.ToLower: covers the ASCII and Latin-1 upper-case letters only. The rest of Unicode case mapping, including mappings that change length, is not modelled.
- Expanders.ReplaceFirst: the `$&`, `$1` and similar replacement patterns of `String.prototype.replace` are not interpreted. Word keys are taken literally.
- The top-level call `generateAllAudio()` (line 280) is the method itself. No entry point is modelled.
- `scripts/convertImages.js` is not part of this model.
