/** Optional values, shared by the search functions of the model. */
module Optional {
  datatype Option<+T> = None | Some(value: T)
}

/**
  Turning image filenames into word keys (scripts/generateAudio.js, word loop
  of generateAllAudio): lower-case the name, remove the first "(digits)"
  counter, remove a trailing ".ext", trim whitespace; then keep only the
  first filename that yields each key.
 */
module Names {
  import opened Optional

  predicate IsDigit(c: char) { '0' <= c <= '9' }

  /** The characters String.prototype.trim removes: ECMAScript WhiteSpace and LineTerminator. */
  predicate IsTrimSpace(c: char) {
    || c == '\t' || c == '\n' || c == '\U{B}' || c == '\U{C}' || c == '\r' || c == ' '
    || c == '\U{A0}' || c == '\U{1680}' || ('\U{2000}' <= c <= '\U{200A}')
    || c == '\U{2028}' || c == '\U{2029}' || c == '\U{202F}' || c == '\U{205F}'
    || c == '\U{3000}' || c == '\U{FEFF}'
  }

  /** Upper-case letters in the ASCII and Latin-1 ranges, the part of toLowerCase this model covers. */
  predicate IsUpper(c: char) {
    ('A' <= c <= 'Z') || ('\U{C0}' <= c <= '\U{DE}' && c != '\U{D7}')
  }

  predicate NoUpper(s: string) {
    forall k :: 0 <= k < |s| ==> !IsUpper(s[k])
  }

  function LowerChar(c: char): (r: char)
    ensures !IsUpper(r)
    ensures !IsUpper(c) ==> r == c
    ensures IsUpper(c) ==> r as int == c as int + 32
  {
    if IsUpper(c) then (c as int + 32) as char else c
  }

  /** String.prototype.toLowerCase, on the ASCII and Latin-1 letters. */
  function ToLower(s: string): (r: string)
    ensures |r| == |s| && NoUpper(r)
    ensures forall k :: 0 <= k < |s| && !IsUpper(s[k]) ==> r[k] == s[k]
    ensures forall k :: 0 <= k < |s| && IsUpper(s[k]) ==> r[k] as int == s[k] as int + 32
  {
    seq(|s|, k requires 0 <= k < |s| => LowerChar(s[k]))
  }

  // ---- .replace(/\(\d+\)/, '') -------------------------------------------

  /** The pattern /\(\d+\)/ matches s[i..j+1]: '(' at i, one or more digits, ')' at j. */
  ghost predicate CounterSpan(s: string, i: int, j: int) {
    0 <= i && i + 1 < j < |s| && s[i] == '(' && s[j] == ')' &&
    forall k :: i < k < j ==> IsDigit(s[k])
  }

  /** The match a regular expression without the g flag replaces: the one that starts leftmost. */
  ghost predicate LeftmostCounter(s: string, i: int, j: int) {
    CounterSpan(s, i, j) && forall i', j' :: 0 <= i' < i ==> !CounterSpan(s, i', j')
  }

  /** End of the run of digits that starts at k. */
  function DigitRunEnd(s: string, k: nat): (e: nat)
    requires k <= |s|
    ensures k <= e <= |s|
    ensures forall m :: k <= m < e ==> IsDigit(s[m])
    ensures e == |s| || !IsDigit(s[e])
    decreases |s| - k
  {
    if k < |s| && IsDigit(s[k]) then DigitRunEnd(s, k + 1) else k
  }

  /** The index of the ')' that closes a counter opened at i, when the pattern matches at i. */
  function CounterClose(s: string, i: nat): (r: Option<nat>)
    ensures r.Some? ==> CounterSpan(s, i, r.value)
    ensures r.None? ==> forall j :: !CounterSpan(s, i, j)
  {
    if i + 1 < |s| && s[i] == '(' then
      var e := DigitRunEnd(s, i + 1);
      assert forall j :: CounterSpan(s, i, j) ==> j == e by {
        forall j | CounterSpan(s, i, j) ensures j == e {
          assert !IsDigit(s[j]);
        }
      }
      if e > i + 1 && e < |s| && s[e] == ')' then Some(e) else None
    else None
  }

  /** The leftmost counter that starts at or after from. */
  function FirstCounter(s: string, from: nat): (r: Option<(nat, nat)>)
    ensures r.Some? ==> from <= r.value.0 && CounterSpan(s, r.value.0, r.value.1)
    ensures r.Some? ==> forall i, j :: from <= i < r.value.0 ==> !CounterSpan(s, i, j)
    ensures r.None? ==> forall i, j :: from <= i ==> !CounterSpan(s, i, j)
    decreases |s| - from
  {
    if from >= |s| then None
    else match CounterClose(s, from)
      case Some(j) => Some((from, j))
      case None => FirstCounter(s, from + 1)
  }

  /** Removes the first "(digits)" group, and only that one. */
  function RemoveFirstCounter(s: string): (r: string)
    ensures |r| <= |s|
    ensures (forall i, j :: !CounterSpan(s, i, j)) ==> r == s
    ensures forall i, j :: LeftmostCounter(s, i, j) ==> r == s[..i] + s[j + 1..]
  {
    match FirstCounter(s, 0)
    case None => s
    case Some((i, j)) =>
      assert forall i', j' :: LeftmostCounter(s, i', j') ==> i' == i && j' == j by {
        forall i', j' | LeftmostCounter(s, i', j') ensures i' == i && j' == j {
          assert i' <= i;
          assert CounterClose(s, i) == Some(j);
          assert CounterClose(s, i') == Some(j');
        }
      }
      s[..i] + s[j + 1..]
  }

  // ---- .replace(/\.[^/.]+$/, '') -----------------------------------------

  /** The pattern /\.[^/.]+$/ matches s[i..]: a dot, then one or more characters up to the end, none of them '.' or '/'. */
  ghost predicate ExtensionAt(s: string, i: int) {
    0 <= i < |s| - 1 && s[i] == '.' && forall k :: i < k < |s| ==> s[k] != '.' && s[k] != '/'
  }

  function LastDot(s: string): (r: Option<nat>)
    ensures r.Some? ==> r.value < |s| && s[r.value] == '.'
    ensures r.Some? ==> forall k :: r.value < k < |s| ==> s[k] != '.'
    ensures r.None? ==> forall k :: 0 <= k < |s| ==> s[k] != '.'
  {
    if |s| == 0 then None
    else if s[|s| - 1] == '.' then Some(|s| - 1)
    else LastDot(s[..|s| - 1])
  }

  /** Removes a trailing file extension; a name without one is kept whole. */
  function StripExtension(s: string): (r: string)
    ensures r <= s
    ensures forall i :: ExtensionAt(s, i) ==> r == s[..i]
    ensures (forall i :: !ExtensionAt(s, i)) ==> r == s
  {
    match LastDot(s)
    case None => s
    case Some(d) =>
      assert forall i :: ExtensionAt(s, i) ==> i == d by {
        forall i | ExtensionAt(s, i) ensures i == d {
          assert s[d] == '.' && s[i] == '.';
        }
      }
      if d < |s| - 1 && forall k :: d < k < |s| ==> s[k] != '/' then
        assert ExtensionAt(s, d);
        s[..d]
      else s
  }

  // ---- .trim() -----------------------------------------------------------

  ghost predicate AllTrimSpace(s: string) {
    forall k :: 0 <= k < |s| ==> IsTrimSpace(s[k])
  }

  /** r is s with only whitespace taken off its two ends, and r neither starts nor ends with whitespace. */
  ghost predicate TrimmedOf(r: string, s: string) {
    && (exists a, b :: 0 <= a <= b <= |s| && r == s[a..b] && AllTrimSpace(s[..a]) && AllTrimSpace(s[b..]))
    && (r == [] || (!IsTrimSpace(r[0]) && !IsTrimSpace(r[|r| - 1])))
  }

  function TrimStart(s: string): (r: string)
    ensures |r| <= |s| && r == s[|s| - |r|..] && AllTrimSpace(s[..|s| - |r|])
    ensures r == [] || !IsTrimSpace(r[0])
  {
    if |s| > 0 && IsTrimSpace(s[0]) then
      var t := TrimStart(s[1..]);
      assert s[..|s| - |t|] == [s[0]] + s[1..][..|s| - 1 - |t|];
      t
    else s
  }

  function TrimEnd(s: string): (r: string)
    ensures |r| <= |s| && r == s[..|r|] && AllTrimSpace(s[|r|..])
    ensures r == [] || !IsTrimSpace(r[|r| - 1])
  {
    if |s| > 0 && IsTrimSpace(s[|s| - 1]) then
      var t := TrimEnd(s[..|s| - 1]);
      assert s[|t|..] == s[..|s| - 1][|t|..] + [s[|s| - 1]];
      t
    else s
  }

  /** String.prototype.trim. */
  function Trim(s: string): (r: string)
    ensures TrimmedOf(r, s)
    ensures |r| <= |s|
  {
    TrimBothEnds(s);
    TrimEnd(TrimStart(s))
  }

  lemma TrimBothEnds(s: string)
    ensures TrimmedOf(TrimEnd(TrimStart(s)), s)
  {
    var t := TrimStart(s);
    var r := TrimEnd(t);
    var a := |s| - |t|;
    var b := a + |r|;
    assert t == s[a..];
    assert r == s[a..b];
    assert AllTrimSpace(s[..a]);
    assert AllTrimSpace(s[b..]) by {
      assert s[b..] == t[|r|..];
    }
    assert r != [] ==> r[0] == t[0];
  }

  // ---- the whole chain, lines 108-111 ------------------------------------

  /** The word key of an image filename. */
  function Normalize(file: string): (r: string)
    ensures |r| <= |file|
    ensures r == [] || (!IsTrimSpace(r[0]) && !IsTrimSpace(r[|r| - 1]))
  {
    Trim(StripExtension(RemoveFirstCounter(ToLower(file))))
  }

  /** The keys of a directory listing, one per filename, in listing order. */
  function Keys(files: seq<string>): (r: seq<string>)
    ensures |r| == |files|
  {
    if files == [] then [] else Keys(files[..|files| - 1]) + [Normalize(files[|files| - 1])]
  }

  /** One more filename adds its key at the end. */
  lemma KeysSnoc(files: seq<string>, file: string)
    ensures Keys(files + [file]) == Keys(files) + [Normalize(file)]
  {
    assert (files + [file])[..|files|] == files;
  }

  /** Key i is the key of filename i: the keys are in listing order. */
  lemma KeysInListingOrder(files: seq<string>)
    ensures forall i :: 0 <= i < |files| ==> Keys(files)[i] == Normalize(files[i])
  {
    forall i | 0 <= i < |files| ensures Keys(files)[i] == Normalize(files[i]) {
      KeyAt(files, i);
    }
  }

  lemma {:induction false} KeyAt(files: seq<string>, i: nat)
    requires i < |files|
    ensures Keys(files)[i] == Normalize(files[i])
  {
    var init := files[..|files| - 1];
    var keys := Keys(init);
    assert Keys(files) == keys + [Normalize(files[|files| - 1])];
    if i < |init| {
      KeyAt(init, i);
      assert files[i] == init[i];
      assert Keys(files)[i] == keys[i];
    } else {
      assert i == |keys|;
    }
  }

  // ---- processedNames: first wins ----------------------------------------

  predicate NoDuplicates<T(==)>(s: seq<T>) {
    forall i, j :: 0 <= i < j < |s| ==> s[i] != s[j]
  }

  /** The keys in the order the word loop handles them: each key once, at its first occurrence. */
  function FirstWins(keys: seq<string>): (r: seq<string>)
    ensures forall k :: k in r <==> k in keys
    ensures NoDuplicates(r)
    ensures |r| <= |keys|
  {
    if keys == [] then []
    else
      var init := keys[..|keys| - 1];
      var last := keys[|keys| - 1];
      if last in init then FirstWins(init) else FirstWins(init) + [last]
  }

  /** Position of the first occurrence of x in s. */
  function FirstIndex<T(==)>(s: seq<T>, x: T): (i: nat)
    requires x in s
    ensures i < |s| && s[i] == x && x !in s[..i]
  {
    if s[0] == x then 0
    else
      var i := FirstIndex(s[1..], x) + 1;
      assert s[..i] == [s[0]] + s[1..][..i - 1];
      i
  }
}

module NameLemmas {
  import opened Optional
  import opened Names

  lemma RemoveFirstCounterKeepsLowerCase(s: string)
    requires NoUpper(s)
    ensures NoUpper(RemoveFirstCounter(s))
  {
    match FirstCounter(s, 0)
    case None =>
    case Some((i, j)) =>
      assert LeftmostCounter(s, i, j);
  }

  lemma StripExtensionKeepsLowerCase(s: string)
    requires NoUpper(s)
    ensures NoUpper(StripExtension(s))
  {
    if d :| ExtensionAt(s, d) {
      assert StripExtension(s) == s[..d];
    }
  }

  lemma TrimKeepsLowerCase(s: string)
    requires NoUpper(s)
    ensures NoUpper(Trim(s))
  {
    var a, b :| 0 <= a <= b <= |s| && Trim(s) == s[a..b];
  }

  /** The key of any filename is free of (modelled) upper-case letters: every stage after toLowerCase only removes characters. */
  lemma NormalizeIsLowerCase(file: string)
    ensures NoUpper(Normalize(file))
  {
    var lower := ToLower(file);
    RemoveFirstCounterKeepsLowerCase(lower);
    StripExtensionKeepsLowerCase(RemoveFirstCounter(lower));
    TrimKeepsLowerCase(StripExtension(RemoveFirstCounter(lower)));
  }

  /** A name that is already lower-case, with no '(' and no '.', and no surrounding whitespace, is its own key. */
  lemma PlainNameIsItsOwnKey(name: string)
    requires NoUpper(name)
    requires '(' !in name && '.' !in name
    requires name == [] || (!IsTrimSpace(name[0]) && !IsTrimSpace(name[|name| - 1]))
    ensures Normalize(name) == name
  {
    assert ToLower(name) == name;
    assert forall i, j :: !CounterSpan(name, i, j) by {
      forall i, j | 0 <= i < |name| ensures !CounterSpan(name, i, j) {
        assert name[i] in name;
      }
    }
    assert forall i :: !ExtensionAt(name, i) by {
      forall i | 0 <= i < |name| ensures !ExtensionAt(name, i) {
        assert name[i] in name;
      }
    }
    assert TrimStart(name) == name;
    assert TrimEnd(name) == name;
  }

  /**
    A lower-case dot-file such as ".ds_store" is all extension: its key is
    the empty string, so the word loop requests a clip of the empty text
    for words/.mp3.
   */
  lemma DotFileHasEmptyKey(name: string)
    requires NoUpper(name) && '(' !in name
    requires ExtensionAt(name, 0)
    ensures Normalize(name) == []
  {
    assert ToLower(name) == name;
    assert forall i, j :: !CounterSpan(name, i, j) by {
      forall i, j | 0 <= i < |name| ensures !CounterSpan(name, i, j) {
        assert name[i] in name;
      }
    }
    assert StripExtension(name) == [];
  }

  /** The three spellings of one picture give one key: cat.png, cat(1).png, Cat(2).jpg. */
  lemma NormalizeExamples()
    ensures Normalize("cat.png") == "cat"
    ensures Normalize("cat(1).png") == "cat"
    ensures Normalize("Cat(2).jpg") == "cat"
  {
    PlainNameExample();
    StemExample("cat.png");
    CounterExample("Cat(2).jpg", "cat(2).jpg");
    CounterExample("cat(1).png", "cat(1).png");
  }

  lemma CounterExample(file: string, lower: string)
    requires file == "cat(1).png" || file == "Cat(2).jpg"
    requires lower == if file[0] == 'C' then "cat(2).jpg" else "cat(1).png"
    ensures Normalize(file) == "cat"
  {
    assert ToLower(file) == lower;
    var stem := if file[0] == 'C' then "cat.jpg" else "cat.png";
    CounterRemovedExample(lower, stem);
    StemExample(stem);
  }

  lemma CounterRemovedExample(lower: string, stem: string)
    requires (lower == "cat(2).jpg" && stem == "cat.jpg") || (lower == "cat(1).png" && stem == "cat.png")
    ensures RemoveFirstCounter(lower) == stem
  {
    assert LeftmostCounter(lower, 3, 5);
    assert lower[..3] + lower[6..] == stem;
  }

  lemma StemExample(name: string)
    requires name == "cat.png" || name == "cat.jpg"
    ensures Trim(StripExtension(name)) == "cat"
  {
    assert StripExtension(name) == "cat" by {
      assert ExtensionAt(name, 3);
    }
    assert TrimStart("cat") == "cat" by {
      assert !IsTrimSpace("cat"[0]);
    }
    assert TrimEnd("cat") == "cat" by {
      assert !IsTrimSpace("cat"[2]);
    }
  }

  lemma PlainNameExample()
    ensures RemoveFirstCounter(ToLower("cat.png")) == "cat.png"
  {
    var name := "cat.png";
    assert ToLower(name) == name;
    assert forall i, j :: !CounterSpan(name, i, j) by {
      forall i, j | 0 <= i < |name| ensures !CounterSpan(name, i, j) { assert name[i] != '('; }
    }
  }

  /** The word loop keeps keys in the order of their first filenames. */
  lemma {:induction false} FirstWinsKeepsFirstOrder(keys: seq<string>, i: int, j: int)
    requires 0 <= i < j < |FirstWins(keys)|
    ensures FirstIndex(keys, FirstWins(keys)[i]) < FirstIndex(keys, FirstWins(keys)[j])
  {
    var init := keys[..|keys| - 1];
    var last := keys[|keys| - 1];
    var r := FirstWins(keys);
    var p := FirstWins(init);
    assert r[i] in keys && r[j] in keys;
    if j < |p| {
      FirstWinsKeepsFirstOrder(init, i, j);
      FirstIndexInPrefix(keys, init, r[i]);
      FirstIndexInPrefix(keys, init, r[j]);
    } else {
      assert last !in init && r[j] == last && r[i] in init;
      FirstIndexInPrefix(keys, init, r[i]);
      assert FirstIndex(keys, last) == |keys| - 1;
    }
  }

  lemma FirstIndexUnique(s: seq<string>, x: string, i: int)
    requires 0 <= i < |s| && s[i] == x && x !in s[..i]
    ensures FirstIndex(s, x) == i
  {
    var m := FirstIndex(s, x);
    assert forall t :: 0 <= t < i ==> s[t] != x by {
      forall t | 0 <= t < i ensures s[t] != x { assert s[..i][t] == s[t]; }
    }
    assert forall t :: 0 <= t < m ==> s[t] != x by {
      forall t | 0 <= t < m ensures s[t] != x { assert s[..m][t] == s[t]; }
    }
  }

  lemma FirstIndexInPrefix(s: seq<string>, prefix: seq<string>, x: string)
    requires prefix <= s && x in prefix
    ensures FirstIndex(s, x) == FirstIndex(prefix, x)
  {
    var k := FirstIndex(prefix, x);
    assert prefix[..k] == s[..k];
    FirstIndexUnique(s, x, k);
  }

  /** Three files for the same picture produce a single word. */
  lemma DeduplicationExample()
    ensures FirstWins(Keys(["cat.png", "cat(1).png", "Cat(2).jpg"])) == ["cat"]
  {
    NormalizeExamples();
    KeysOfThree("cat.png", "cat(1).png", "Cat(2).jpg");
    FirstWinsOfRepeats("cat");
  }

  lemma KeysOfThree(a: string, b: string, c: string)
    ensures Keys([a, b, c]) == [Normalize(a), Normalize(b), Normalize(c)]
  {
    KeysInListingOrder([a, b, c]);
  }

  lemma FirstWinsOfRepeats(k: string)
    ensures FirstWins([k, k, k]) == [k]
  {
    var keys: seq<string> := [k, k, k];
    assert keys[..2] == [k, k] && keys[..2][..1] == [k] && [k][..0] == [];
    assert FirstWins([k]) == [k];
    assert keys[1] in keys[..1];
    assert keys[2] in keys[..2];
  }
}
