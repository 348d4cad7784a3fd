/**
  The rules that fix the text and the output path of every clip
  (scripts/generateAudio.js): one clip per word, the "the word is" prompt,
  numbered message banks, question templates with "$word" substituted, and
  the letter table. They are functions of their inputs only and never look
  at the file store.
 */
module Expanders {
  import opened Optional
  import opened Names

  /** One clip to produce: what is spoken, whether it is an SSML document, where the MP3 goes. */
  datatype Task = Task(text: string, useSsml: bool, path: string)

  /** path.join of a directory and a file name, as concatenation with '/'. */
  function Join(dir: string, name: string): string {
    dir + "/" + name
  }

  const Mp3 := ".mp3"

  // ---- decimal numbering, `${i + 1}` ---------------------------------------

  predicate AllDigits(s: string) {
    forall k :: 0 <= k < |s| ==> IsDigit(s[k])
  }

  function DigitChar(d: nat): (c: char)
    requires d < 10
    ensures IsDigit(c) && c as int - '0' as int == d
  {
    ('0' as int + d) as char
  }

  /** The decimal numeral of n, as a template literal prints it. */
  function Decimal(n: nat): (r: string)
    ensures |r| >= 1 && AllDigits(r)
    ensures r[0] == '0' <==> n == 0
  {
    if n < 10 then [DigitChar(n)] else Decimal(n / 10) + [DigitChar(n % 10)]
  }

  /** The number a string of digits denotes. */
  function DecimalValue(s: string): nat
    requires AllDigits(s)
  {
    if s == [] then 0 else DecimalValue(s[..|s| - 1]) * 10 + (s[|s| - 1] as int - '0' as int)
  }

  lemma {:induction false} DecimalRoundTrip(n: nat)
    ensures DecimalValue(Decimal(n)) == n
  {
    var s := Decimal(n);
    if n < 10 {
      assert s[..|s| - 1] == [];
    } else {
      assert s[..|s| - 1] == Decimal(n / 10);
      DecimalRoundTrip(n / 10);
    }
  }

  /** Different positions give different numerals. */
  lemma DecimalInjective(m: nat, n: nat)
    requires m != n
    ensures Decimal(m) != Decimal(n)
  {
    DecimalRoundTrip(m);
    DecimalRoundTrip(n);
  }

  /** If two strings share a prefix and a suffix, the parts in between are equal. */
  lemma MiddleEqual(p: string, x: string, y: string, q: string)
    requires p + x + q == p + y + q
    ensures x == y
  {
    assert |x| == |y|;
    forall k | 0 <= k < |x| ensures x[k] == y[k] {
      assert (p + x + q)[|p| + k] == x[k];
      assert (p + y + q)[|p| + k] == y[k];
    }
  }

  // ---- words and the "the word is" prompt ----------------------------------

  /** The clip for a word key: the key is spoken and named {key}.mp3. */
  function WordTask(wordsDir: string, key: string): Task {
    Task(key, false, Join(wordsDir, key + Mp3))
  }

  const TheWordIs := "the word is"

  function WordIsTask(otherDir: string): Task {
    Task(TheWordIs, false, Join(otherDir, "the_word_is.mp3"))
  }

  /** Distinct keys never share an output file. */
  lemma WordPathsDistinct(wordsDir: string, k1: string, k2: string)
    requires k1 != k2
    ensures WordTask(wordsDir, k1).path != WordTask(wordsDir, k2).path
  {
    if WordTask(wordsDir, k1).path == WordTask(wordsDir, k2).path {
      assert WordTask(wordsDir, k1).path == wordsDir + "/" + k1 + Mp3;
      assert WordTask(wordsDir, k2).path == wordsDir + "/" + k2 + Mp3;
      MiddleEqual(wordsDir + "/", k1, k2, Mp3);
    }
  }

  // ---- message banks (processBatchAudio) -----------------------------------

  const CongratulatoryMessages: seq<string> := [
    "Fantastic job!",
    "You're amazing!",
    "Super smart!",
    "Brilliant work!",
    "You're a star!",
    "That's perfect!",
    "Way to go!",
    "You got it!",
    "You're so clever!",
    "Great thinking!",
    "Wonderful!",
    "Super duper!",
    "You're learning so well!",
    "Excellent work!",
    "You're doing great!",
    "Keep shining!",
    "That's beautiful!",
    "You're incredible!",
    "What a superstar!",
    "You make learning fun!"
  ]

  const SupportiveMessages: seq<string> := [
    "That's not quite right. Let's try again!",
    "Almost there! Try once more.",
    "You can do it! Try another letter.",
    "Not that one, but you're learning!",
    "Keep trying, you'll get it!",
    "Let's have another go!",
    "Don't give up, try again!",
    "Not quite. Which letter do you think it is?",
    "That's a good try! Let's try another letter.",
    "You're getting closer! Try again.",
    "Oops! Try a different letter.",
    "That's not it, but you're doing great!",
    "Practice makes perfect! Try again.",
    "Everyone learns by trying. Let's try again!",
    "That's tricky! Have another go.",
    "You're being so brave trying! Let's try again.",
    "Not that one. Can you find the right letter?",
    "Keep going! You'll get it next time.",
    "Learning takes practice. Try again!",
    "I know you can do this! Try another letter."
  ]

  /** The file of the bank entry at 0-based position i: {prefix}{i+1}.mp3. */
  function BankPath(dir: string, prefix: string, i: nat): string {
    Join(dir, prefix + Decimal(i + 1) + Mp3)
  }

  /** One clip per bank entry, in array order, spoken as written. */
  function BankTasks(dir: string, items: seq<string>, prefix: string): (r: seq<Task>)
    ensures |r| == |items|
    ensures forall i :: 0 <= i < |items| ==> r[i].text == items[i] && !r[i].useSsml
    ensures forall i :: 0 <= i < |items| ==> r[i].path == BankPath(dir, prefix, i)
  {
    seq(|items|, i requires 0 <= i < |items| => Task(items[i], false, BankPath(dir, prefix, i)))
  }

  /** Two positions of a bank never share a file: numbering is one-to-one. */
  lemma BankPathsDistinct(dir: string, prefix: string, i: nat, j: nat)
    requires i != j
    ensures BankPath(dir, prefix, i) != BankPath(dir, prefix, j)
  {
    if BankPath(dir, prefix, i) == BankPath(dir, prefix, j) {
      assert BankPath(dir, prefix, i) == dir + "/" + prefix + Decimal(i + 1) + Mp3;
      assert BankPath(dir, prefix, j) == dir + "/" + prefix + Decimal(j + 1) + Mp3;
      MiddleEqual(dir + "/" + prefix, Decimal(i + 1), Decimal(j + 1), Mp3);
      DecimalInjective(i + 1, j + 1);
    }
  }

  // ---- question templates (processQuestionVariations) ----------------------

  const WordPlaceholder := "$word"

  const QuestionVariations: seq<string> := [
    "Which letter does $word begin with?",
    "Can you tell me the first letter of $word?",
    "What letter starts the word $word?",
    "Do you know the first letter of $word?",
    "What is the starting letter of $word?"
  ]

  ghost predicate OccursAt(s: string, pat: string, k: int) {
    0 <= k && k + |pat| <= |s| && s[k..k + |pat|] == pat
  }

  /** The occurrence String.prototype.replace with a string pattern replaces: the first. */
  ghost predicate FirstOccurrence(s: string, pat: string, k: int) {
    OccursAt(s, pat, k) && forall k' :: 0 <= k' < k ==> !OccursAt(s, pat, k')
  }

  /** The first position at or after from where pat occurs in s. */
  function IndexOf(s: string, pat: string, from: nat): (r: Option<nat>)
    ensures r.Some? ==> from <= r.value && OccursAt(s, pat, r.value)
    ensures r.Some? ==> forall k :: from <= k < r.value ==> !OccursAt(s, pat, k)
    ensures r.None? ==> forall k :: from <= k ==> !OccursAt(s, pat, k)
    decreases |s| - from
  {
    if from + |pat| > |s| then None
    else if s[from..from + |pat|] == pat then Some(from)
    else IndexOf(s, pat, from + 1)
  }

  /** String.prototype.replace(pat, rep) with a string pattern: only the first occurrence is replaced. */
  function ReplaceFirst(s: string, pat: string, rep: string): (r: string)
    ensures (forall k :: !OccursAt(s, pat, k)) ==> r == s
    ensures forall k :: FirstOccurrence(s, pat, k) ==> r == s[..k] + rep + s[k + |pat|..]
  {
    match IndexOf(s, pat, 0)
    case None => s
    case Some(k) =>
      assert forall k' :: FirstOccurrence(s, pat, k') ==> k' == k;
      s[..k] + rep + s[k + |pat|..]
  }

  function QuestionPath(dir: string, word: string, i: nat): string {
    Join(dir, word + "_question_" + Decimal(i + 1) + Mp3)
  }

  /** The clips of one word: template i with "$word" replaced by the word, saved as {word}_question_{i+1}.mp3. */
  function QuestionTasks(dir: string, word: string, variations: seq<string>): (r: seq<Task>)
    ensures |r| == |variations|
    ensures forall i :: 0 <= i < |r| ==> !r[i].useSsml
    ensures forall i :: 0 <= i < |r| ==>
      r[i].text == ReplaceFirst(variations[i], WordPlaceholder, word) && r[i].path == QuestionPath(dir, word, i)
  {
    seq(|variations|, i requires 0 <= i < |variations| =>
      Task(ReplaceFirst(variations[i], WordPlaceholder, word), false, QuestionPath(dir, word, i)))
  }

  /** The templates of one word never share a file. */
  lemma QuestionPathsDistinct(dir: string, word: string, i: nat, j: nat)
    requires i != j
    ensures QuestionPath(dir, word, i) != QuestionPath(dir, word, j)
  {
    if QuestionPath(dir, word, i) == QuestionPath(dir, word, j) {
      assert QuestionPath(dir, word, i) == dir + "/" + word + "_question_" + Decimal(i + 1) + Mp3;
      assert QuestionPath(dir, word, j) == dir + "/" + word + "_question_" + Decimal(j + 1) + Mp3;
      MiddleEqual(dir + "/" + word + "_question_", Decimal(i + 1), Decimal(j + 1), Mp3);
      DecimalInjective(i + 1, j + 1);
    }
  }

  /** A template whose text before the first "$word" holds no '$' has exactly that occurrence replaced. */
  lemma {:induction false} ReplaceAfterPlainPrefix(pre: string, pat: string, post: string, rep: string)
    requires |pat| > 0 && pat[0] !in pre
    ensures ReplaceFirst(pre + pat + post, pat, rep) == pre + rep + post
  {
    var s := pre + pat + post;
    assert OccursAt(s, pat, |pre|) by { assert s[|pre|..|pre| + |pat|] == pat; }
    forall k | 0 <= k < |pre| ensures !OccursAt(s, pat, k) {
      assert s[k] == pre[k];
      assert s[k] in pre;
    }
    assert FirstOccurrence(s, pat, |pre|);
    assert s[..|pre|] == pre && s[|pre| + |pat|..] == post;
  }

  /** A template written as pre + "$word" + post, with no '$' before the placeholder, is spoken with the word in its place. */
  lemma QuestionTextOfTemplate(dir: string, word: string, variations: seq<string>, i: nat, pre: string, post: string)
    requires i < |variations| && variations[i] == pre + WordPlaceholder + post && '$' !in pre
    ensures QuestionTasks(dir, word, variations)[i].text == pre + word + post
    ensures QuestionTasks(dir, word, variations)[i].path == QuestionPath(dir, word, i)
  {
    ReplaceAfterPlainPrefix(pre, WordPlaceholder, post, word);
  }

  /** The first template asks "Which letter does <word> begin with?". */
  lemma FirstQuestionText(dir: string, word: string)
    ensures QuestionTasks(dir, word, QuestionVariations)[0].text == "Which letter does " + word + " begin with?"
  {
    var pre, post := "Which letter does ", " begin with?";
    assert QuestionVariations[0] == pre + WordPlaceholder + post;
    assert forall k :: 0 <= k < |pre| ==> pre[k] != '$';
    QuestionTextOfTemplate(dir, word, QuestionVariations, 0, pre, post);
  }

  // ---- the letter table ----------------------------------------------------

  const Alphabet := "abcdefghijklmnopqrstuvwxyz"

  /** What is spoken for each letter: a respelled name, never the bare letter. */
  const LetterNames: map<char, string> := map[
    'a' := "A.", 'b' := "B.", 'c' := "C.", 'd' := "D.", 'e' := "E.", 'f' := "F.",
    'g' := "G.", 'h' := "H.", 'i' := "I.", 'j' := "J.", 'k' := "K.", 'l' := "L.",
    'm' := "M.", 'n' := "N.", 'o' := "O.", 'p' := "P.", 'q' := "Q.", 'r' := "R.",
    's' := "S.", 't' := "T.", 'u' := "U.", 'v' := "V.", 'w' := "W.", 'x' := "X.",
    'y' := "Y.", 'z' := "Zed"
  ]

  const SsmlPrefix := "<speak>"

  predicate StartsWith(s: string, prefix: string) {
    |prefix| <= |s| && s[..|prefix|] == prefix
  }

  /** Letter files carry an underscore: {letter}_.mp3. */
  function LetterPath(dir: string, c: char): string {
    Join(dir, [c] + "_.mp3")
  }

  function LetterTask(dir: string, c: char): Task
    requires c in LetterNames
  {
    var name := LetterNames[c];
    Task(name, StartsWith(name, SsmlPrefix), LetterPath(dir, c))
  }

  lemma LetterTableCoversAlphabet()
    ensures forall c :: c in LetterNames <==> c in Alphabet
  {
    assert LetterNames.Keys == set c | c in Alphabet;
  }

  /** One clip per letter a to z, in alphabet order. */
  function LetterTasks(dir: string): (r: seq<Task>)
    ensures |r| == |Alphabet| == 26
    ensures forall i :: 0 <= i < |r| ==> Alphabet[i] in LetterNames && r[i] == LetterTask(dir, Alphabet[i])
    ensures forall i :: 0 <= i < |r| ==>
      && r[i].text == LetterNames[Alphabet[i]]
      && (r[i].useSsml <==> StartsWith(LetterNames[Alphabet[i]], SsmlPrefix))
      && r[i].path == LetterPath(dir, Alphabet[i])
  {
    LetterTableCoversAlphabet();
    seq(|Alphabet|, i requires 0 <= i < |Alphabet| => LetterTask(dir, Alphabet[i]))
  }

  /** No letter is spoken as its bare character, z is spoken "Zed", and every letter goes as plain text. */
  lemma LetterOverrides(dir: string)
    ensures forall i :: 0 <= i < 26 ==> LetterTasks(dir)[i].text != [Alphabet[i]]
    ensures forall i :: 0 <= i < 26 ==> !LetterTasks(dir)[i].useSsml
    ensures LetterTasks(dir)[25].text == "Zed"
    ensures forall i :: 0 <= i < 26 ==> LetterTasks(dir)[i].path == LetterPath(dir, Alphabet[i])
  {
    forall c | c in LetterNames ensures LetterNames[c] != [c] && !StartsWith(LetterNames[c], SsmlPrefix) {
      assert LetterNames[c][0] != c;
      assert LetterNames[c][0] != '<';
    }
  }

  /** Two letters never share a file. */
  lemma LetterPathsDistinct(dir: string, c1: char, c2: char)
    requires c1 != c2
    ensures LetterPath(dir, c1) != LetterPath(dir, c2)
  {
    if LetterPath(dir, c1) == LetterPath(dir, c2) {
      assert LetterPath(dir, c1) == dir + "/" + [c1] + "_.mp3";
      assert LetterPath(dir, c2) == dir + "/" + [c2] + "_.mp3";
      MiddleEqual(dir + "/", [c1], [c2], "_.mp3");
    }
  }
}
