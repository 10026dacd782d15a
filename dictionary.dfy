/**
 * The local music-term dictionary of `constants/dictionaryData.ts`: the
 * definition template, the `DB` and `ALIAS_MAP` tables, `normalize`, the
 * three-stage lookup `searchLocalDictionary` and the autocomplete list
 * `getSuggestions`. A lookup returns the `DB` key whose definition the
 * source returns; the definition texts are not part of the model.
 */
module Dictionary {
  import opened Wrappers

  // ------------------------------------------------------------ template

  /** The first line's label of every definition. */
  const TermLabel: string := "**術語**："

  /**
   * `formatDefinition`: the four labelled lines of a definition. The text
   * opens with the term line `**術語**：original / chinese` and closes with
   * the playing advice.
   */
  function FormatDefinition(original: string, chinese: string, lang: string, def: string, app: string): (r: string)
    ensures var head := TermLabel + original + " / " + chinese;
      |r| >= |head| + |app| && r[..|head|] == head && r[|r| - |app|..] == app
  {
    var head := TermLabel + original + " / " + chinese;
    var body := "\n**語言**：" + lang + "\n**定義**：" + def + "\n**演奏應用**：";
    assert (head + body + app)[..|head|] == head;
    assert (head + body + app)[|head + body|..] == app;
    head + body + app
  }

  // -------------------------------------------------------------- tables

  const DbSize: nat := 50
  const AliasCount: nat := 58

  /** The keys of `DB`, in declaration order. */
  function DbKey(i: nat): string
    requires i < DbSize
  {
    if i == 0 then "largo" else
    if i == 1 then "larghetto" else
    if i == 2 then "adagio" else
    if i == 3 then "andante" else
    if i == 4 then "andantino" else
    if i == 5 then "moderato" else
    if i == 6 then "allegretto" else
    if i == 7 then "allegro" else
    if i == 8 then "vivace" else
    if i == 9 then "presto" else
    if i == 10 then "ritardando" else
    if i == 11 then "rallentando" else
    if i == 12 then "accelerando" else
    if i == 13 then "rubato" else
    if i == 14 then "a tempo" else
    if i == 15 then "agitato" else
    if i == 16 then "animato" else
    if i == 17 then "brillante" else
    if i == 18 then "cantabile" else
    if i == 19 then "dolce" else
    if i == 20 then "espressivo" else
    if i == 21 then "grazioso" else
    if i == 22 then "maestoso" else
    if i == 23 then "misterioso" else
    if i == 24 then "scherzando" else
    if i == 25 then "sostenuto" else
    if i == 26 then "tranquillo" else
    if i == 27 then "piano" else
    if i == 28 then "forte" else
    if i == 29 then "crescendo" else
    if i == 30 then "diminuendo" else
    if i == 31 then "sfz" else
    if i == 32 then "staccato" else
    if i == 33 then "legato" else
    if i == 34 then "marcato" else
    if i == 35 then "arpeggio" else
    if i == 36 then "glissando" else
    if i == 37 then "pizzicato" else
    if i == 38 then "arco" else
    if i == 39 then "tremolo" else
    if i == 40 then "trill" else
    if i == 41 then "una corda" else
    if i == 42 then "tutti" else
    if i == 43 then "solo" else
    if i == 44 then "coda" else
    if i == 45 then "da capo" else
    if i == 46 then "dal segno" else
    if i == 47 then "opus" else
    if i == 48 then "etude" else
    "nocturne"
  }

  /** The entries of `ALIAS_MAP` (alias, key), in declaration order. */
  function AliasAt(i: nat): (string, string)
    requires i < AliasCount
  {
    if i == 0 then ("廣板", "largo") else
    if i == 1 then ("小廣板", "larghetto") else
    if i == 2 then ("慢板", "adagio") else
    if i == 3 then ("行板", "andante") else
    if i == 4 then ("小行板", "andantino") else
    if i == 5 then ("中板", "moderato") else
    if i == 6 then ("小快板", "allegretto") else
    if i == 7 then ("快板", "allegro") else
    if i == 8 then ("甚快板", "vivace") else
    if i == 9 then ("急板", "presto") else
    if i == 10 then ("漸慢", "ritardando") else
    if i == 11 then ("rit", "ritardando") else
    if i == 12 then ("rit.", "ritardando") else
    if i == 13 then ("rall", "rallentando") else
    if i == 14 then ("rall.", "rallentando") else
    if i == 15 then ("漸快", "accelerando") else
    if i == 16 then ("accel", "accelerando") else
    if i == 17 then ("accel.", "accelerando") else
    if i == 18 then ("彈性速度", "rubato") else
    if i == 19 then ("自由速度", "rubato") else
    if i == 20 then ("回原速", "a tempo") else
    if i == 21 then ("激動", "agitato") else
    if i == 22 then ("有精神", "animato") else
    if i == 23 then ("華麗", "brillante") else
    if i == 24 then ("如歌", "cantabile") else
    if i == 25 then ("甜美", "dolce") else
    if i == 26 then ("溫柔", "dolce") else
    if i == 27 then ("表情", "espressivo") else
    if i == 28 then ("優雅", "grazioso") else
    if i == 29 then ("莊嚴", "maestoso") else
    if i == 30 then ("神祕", "misterioso") else
    if i == 31 then ("詼諧", "scherzando") else
    if i == 32 then ("持續", "sostenuto") else
    if i == 33 then ("寧靜", "tranquillo") else
    if i == 34 then ("弱", "piano") else
    if i == 35 then ("強", "forte") else
    if i == 36 then ("漸強", "crescendo") else
    if i == 37 then ("漸弱", "diminuendo") else
    if i == 38 then ("突強", "sfz") else
    if i == 39 then ("斷奏", "staccato") else
    if i == 40 then ("跳音", "staccato") else
    if i == 41 then ("圓滑奏", "legato") else
    if i == 42 then ("連奏", "legato") else
    if i == 43 then ("加強音", "marcato") else
    if i == 44 then ("琶音", "arpeggio") else
    if i == 45 then ("滑奏", "glissando") else
    if i == 46 then ("撥奏", "pizzicato") else
    if i == 47 then ("拉奏", "arco") else
    if i == 48 then ("震音", "tremolo") else
    if i == 49 then ("顫音", "trill") else
    if i == 50 then ("柔音踏板", "una corda") else
    if i == 51 then ("全體", "tutti") else
    if i == 52 then ("獨奏", "solo") else
    if i == 53 then ("尾奏", "coda") else
    if i == 54 then ("從頭反覆", "da capo") else
    if i == 55 then ("作品編號", "opus") else
    if i == 56 then ("練習曲", "etude") else
    ("夜曲", "nocturne")
  }

  /** Where each alias's target sits in `DB`: the witness for `AliasTargetsKnown`. */
  ghost function TargetIndex(i: nat): nat
    requires i < AliasCount
  {
    if i == 0 then 0 else
    if i == 1 then 1 else
    if i == 2 then 2 else
    if i == 3 then 3 else
    if i == 4 then 4 else
    if i == 5 then 5 else
    if i == 6 then 6 else
    if i == 7 then 7 else
    if i == 8 then 8 else
    if i == 9 then 9 else
    if i == 10 then 10 else
    if i == 11 then 10 else
    if i == 12 then 10 else
    if i == 13 then 11 else
    if i == 14 then 11 else
    if i == 15 then 12 else
    if i == 16 then 12 else
    if i == 17 then 12 else
    if i == 18 then 13 else
    if i == 19 then 13 else
    if i == 20 then 14 else
    if i == 21 then 15 else
    if i == 22 then 16 else
    if i == 23 then 17 else
    if i == 24 then 18 else
    if i == 25 then 19 else
    if i == 26 then 19 else
    if i == 27 then 20 else
    if i == 28 then 21 else
    if i == 29 then 22 else
    if i == 30 then 23 else
    if i == 31 then 24 else
    if i == 32 then 25 else
    if i == 33 then 26 else
    if i == 34 then 27 else
    if i == 35 then 28 else
    if i == 36 then 29 else
    if i == 37 then 30 else
    if i == 38 then 31 else
    if i == 39 then 32 else
    if i == 40 then 32 else
    if i == 41 then 33 else
    if i == 42 then 33 else
    if i == 43 then 34 else
    if i == 44 then 35 else
    if i == 45 then 36 else
    if i == 46 then 37 else
    if i == 47 then 38 else
    if i == 48 then 39 else
    if i == 49 then 40 else
    if i == 50 then 41 else
    if i == 51 then 42 else
    if i == 52 then 43 else
    if i == 53 then 44 else
    if i == 54 then 45 else
    if i == 55 then 47 else
    if i == 56 then 48 else
    49
  }

  /** `Object.keys(DB)` */
  function DbKeys(): (r: seq<string>)
    ensures |r| == DbSize && forall i :: 0 <= i < DbSize ==> r[i] == DbKey(i)
  {
    seq(DbSize, i requires 0 <= i < DbSize => DbKey(i))
  }

  /** `Object.keys(ALIAS_MAP)` */
  function AliasKeys(): (r: seq<string>)
    ensures |r| == AliasCount && forall i :: 0 <= i < AliasCount ==> r[i] == AliasAt(i).0
  {
    seq(AliasCount, i requires 0 <= i < AliasCount => AliasAt(i).0)
  }

  /** Every alias points at a key of `DB`. */
  lemma AliasTargetsKnown()
    ensures forall i :: 0 <= i < AliasCount ==> AliasAt(i).1 in DbKeys()
  {
    assert forall i :: 0 <= i < AliasCount ==> TargetIndex(i) < DbSize && AliasAt(i).1 == DbKey(TargetIndex(i));
    forall i | 0 <= i < AliasCount ensures AliasAt(i).1 in DbKeys() {
      assert DbKeys()[TargetIndex(i)] == AliasAt(i).1;
    }
  }

  predicate IsUpper(c: char)
  {
    'A' <= c <= 'Z'
  }

  /** No key of `DB` is empty or starts with a capital letter. */
  lemma DbKeyShape()
    ensures forall i :: 0 <= i < DbSize ==> |DbKey(i)| > 0 && !IsUpper(DbKey(i)[0])
  {
  }

  /** No alias is empty or starts with a capital letter. */
  lemma AliasKeyShape()
    ensures forall i :: 0 <= i < AliasCount ==> |AliasAt(i).0| > 0 && !IsUpper(AliasAt(i).0[0])
  {
  }

  /** No key and no alias is empty or starts with a capital letter. */
  lemma TableKeysShape()
    ensures forall k :: k in DbKeys() ==> |k| > 0 && !IsUpper(k[0])
    ensures forall k :: k in AliasKeys() ==> |k| > 0 && !IsUpper(k[0])
  {
    DbKeyShape();
    AliasKeyShape();
    forall k | k in DbKeys() ensures |k| > 0 && !IsUpper(k[0]) {
      var i :| 0 <= i < DbSize && DbKeys()[i] == k;
    }
    forall k | k in AliasKeys() ensures |k| > 0 && !IsUpper(k[0]) {
      var i :| 0 <= i < AliasCount && AliasKeys()[i] == k;
    }
  }

  // ----------------------------------------------------------- normalize

  /** The white space `trim` removes, restricted to ASCII. */
  predicate IsSpace(c: char)
  {
    c == ' ' || c == '\t' || c == '\n' || c == '\r' || c == 11 as char || c == 12 as char
  }

  /** Leading white space removed: the longest suffix that does not start with white space. */
  function TrimStart(s: string): (r: string)
    ensures |r| <= |s| && r == s[|s| - |r|..]
    ensures forall i :: 0 <= i < |s| - |r| ==> IsSpace(s[i])
    ensures |r| > 0 ==> !IsSpace(r[0])
  {
    if |s| > 0 && IsSpace(s[0]) then TrimStart(s[1..]) else s
  }

  /** Trailing white space removed: the longest prefix that does not end with white space. */
  function TrimEnd(s: string): (r: string)
    ensures |r| <= |s| && r == s[..|r|]
    ensures forall i :: |r| <= i < |s| ==> IsSpace(s[i])
    ensures |r| > 0 ==> !IsSpace(r[|r| - 1])
  {
    if |s| > 0 && IsSpace(s[|s| - 1]) then TrimEnd(s[..|s| - 1]) else s
  }

  /** Neither end is white space. */
  predicate Trimmed(s: string)
  {
    |s| == 0 || (!IsSpace(s[0]) && !IsSpace(s[|s| - 1]))
  }

  /** `trim` */
  function Trim(s: string): (r: string)
    ensures Trimmed(r)
  {
    var t := TrimStart(s);
    var r := TrimEnd(t);
    assert |r| > 0 ==> r[0] == t[0];
    r
  }

  /** `toLowerCase` on one character, restricted to ASCII. */
  function LowerChar(c: char): (d: char)
    ensures !IsUpper(d)
    ensures IsSpace(d) <==> IsSpace(c)
  {
    if IsUpper(c) then (c as int + 32) as char else c
  }

  /** `toLowerCase` */
  function Lower(s: string): (r: string)
    ensures |r| == |s|
  {
    seq(|s|, i requires 0 <= i < |s| => LowerChar(s[i]))
  }

  /** `normalize = s.trim().toLowerCase()` */
  function Normalize(s: string): string
  {
    Lower(Trim(s))
  }

  /** A trimmed string is its own trim. */
  lemma TrimOfTrimmed(s: string)
    requires Trimmed(s)
    ensures Trim(s) == s
  {
  }

  /** Lowering a string without capitals changes nothing. */
  lemma LowerOfLowercase(s: string)
    requires forall i :: 0 <= i < |s| ==> !IsUpper(s[i])
    ensures Lower(s) == s
  {
  }

  /**
   * A normalised string is trimmed and has no capital letters, and
   * normalising it again changes nothing.
   */
  lemma NormalizeIdempotent(s: string)
    ensures var n := Normalize(s);
      && Trimmed(n)
      && (forall i :: 0 <= i < |n| ==> !IsUpper(n[i]))
      && Normalize(n) == n
  {
    var n := Normalize(s);
    TrimOfTrimmed(n);
    assert Lower(n) == n;
  }

  // -------------------------------------------------------------- lookup

  /** `sub` occurs in `s` starting at index `i`. */
  predicate OccursAt(s: string, sub: string, i: int)
  {
    0 <= i <= |s| - |sub| && s[i..i + |sub|] == sub
  }

  /** `String.prototype.includes`: `sub` occurs in `s`. */
  predicate Contains(s: string, sub: string)
  {
    exists i :: 0 <= i <= |s| - |sub| && OccursAt(s, sub, i)
  }

  /** Every string contains the empty one. */
  lemma ContainsEmpty(s: string)
    ensures Contains(s, "")
  {
    assert OccursAt(s, "", 0);
  }

  /** `ALIAS_MAP[key]`, scanning the entries from place `i`. */
  function AliasFrom(key: string, i: nat): (r: Option<string>)
    requires i <= AliasCount
    ensures r.Some? ==> exists j :: i <= j < AliasCount && AliasAt(j) == (key, r.value)
    ensures r.None? ==> forall j :: i <= j < AliasCount ==> AliasAt(j).0 != key
    decreases AliasCount - i
  {
    if i == AliasCount then None
    else if AliasAt(i).0 == key then Some(AliasAt(i).1)
    else AliasFrom(key, i + 1)
  }

  /** The `find` test: the key contains the query or the query contains the key. */
  predicate PartialMatch(k: string, key: string)
  {
    Contains(k, key) || Contains(key, k)
  }

  /** `Object.keys(DB).find(...)`, from place `i`: the first partially matching key. */
  function PartialFrom(key: string, i: nat): (r: Option<nat>)
    requires i <= DbSize
    ensures r.Some? ==> i <= r.value < DbSize && PartialMatch(DbKey(r.value), key)
    ensures r.Some? ==> forall l :: i <= l < r.value ==> !PartialMatch(DbKey(l), key)
    ensures r.None? ==> forall l :: i <= l < DbSize ==> !PartialMatch(DbKey(l), key)
    decreases DbSize - i
  {
    if i == DbSize then None
    else if PartialMatch(DbKey(i), key) then Some(i)
    else PartialFrom(key, i + 1)
  }

  /**
   * `searchLocalDictionary`: the key whose definition is returned, trying the
   * normalised term as a key, then as an alias, then the first partial match.
   */
  function Search(term: string): Option<string>
  {
    var key := Normalize(term);
    if key in DbKeys() then Some(key)
    else
      var alias := AliasFrom(key, 0);
      if alias.Some? && |alias.value| > 0 && alias.value in DbKeys() then alias
      else
        match PartialFrom(key, 0)
        case Some(j) => Some(DbKey(j))
        case None => None
  }

  /**
   * The three stages of the lookup. An exact key wins; otherwise an alias
   * is always resolved (its target is a key); otherwise the first key of
   * `DB` that partially matches is returned, and nothing when none does.
   */
  lemma SearchStages(term: string)
    ensures var key := Normalize(term);
      && (key in DbKeys() ==> Search(term) == Some(key))
      && (key !in DbKeys() && AliasFrom(key, 0).Some? ==>
            Search(term) == AliasFrom(key, 0) && (exists j :: 0 <= j < AliasCount && AliasAt(j) == (key, Search(term).value)))
      && (key !in DbKeys() && AliasFrom(key, 0).None? ==>
            && (Search(term).None? <==> forall l :: 0 <= l < DbSize ==> !PartialMatch(DbKey(l), key))
            && (Search(term).Some? ==>
                  exists j :: (0 <= j < DbSize && Search(term) == Some(DbKey(j)) && PartialMatch(DbKey(j), key)
                               && forall l :: 0 <= l < j ==> !PartialMatch(DbKey(l), key))))
  {
    var key := Normalize(term);
    AliasTargetsKnown();
    TableKeysShape();
    var alias := AliasFrom(key, 0);
    if key !in DbKeys() && alias.Some? {
      var j :| 0 <= j < AliasCount && AliasAt(j) == (key, alias.value);
      assert alias.value in DbKeys() && |alias.value| > 0;
    }
    if key !in DbKeys() && alias.None? {
      var p := PartialFrom(key, 0);
      if p.Some? {
        assert Search(term) == Some(DbKey(p.value));
      }
    }
  }

  /** Whatever the lookup returns is a key of `DB`. */
  lemma SearchReturnsKey(term: string)
    ensures Search(term).Some? ==> Search(term).value in DbKeys()
  {
    var key := Normalize(term);
    if key !in DbKeys() && AliasFrom(key, 0).None? && PartialFrom(key, 0).Some? {
      assert DbKeys()[PartialFrom(key, 0).value] == DbKey(PartialFrom(key, 0).value);
    }
  }

  /**
   * A blank term normalises to the empty string, which is no key and no
   * alias but is contained in every key: the lookup returns the first key.
   */
  lemma BlankTermFindsFirstKey(term: string)
    requires Normalize(term) == ""
    ensures Search(term) == Some("largo")
  {
    TableKeysShape();
    AliasKeyShape();
    ContainsEmpty(DbKey(0));
    assert "" !in DbKeys();
    assert AliasFrom("", 0).None?;
    assert PartialFrom("", 0) == Some(0);
  }

  // --------------------------------------------------------- suggestions

  /** The strings of `keys` that contain `q`, in order. */
  function Filter(keys: seq<string>, q: string): seq<string>
  {
    if |keys| == 0 then []
    else
      var init := keys[..|keys| - 1];
      var last := keys[|keys| - 1];
      Filter(init, q) + (if Contains(last, q) then [last] else [])
  }

  /** One more key adds itself when it matches, and nothing otherwise. */
  lemma FilterSnoc(keys: seq<string>, x: string, q: string)
    ensures Filter(keys + [x], q) == Filter(keys, q) + (if Contains(x, q) then [x] else [])
  {
    assert (keys + [x])[..|keys|] == keys;
  }

  /** The filter keeps exactly the strings of `keys` that contain `q`. */
  lemma {:induction false} FilterExact(keys: seq<string>, q: string)
    ensures forall x :: x in Filter(keys, q) <==> x in keys && Contains(x, q)
  {
    if |keys| > 0 {
      var init := keys[..|keys| - 1];
      var last := keys[|keys| - 1];
      FilterExact(init, q);
      assert keys == init + [last];
    }
  }

  /** `Set.add` on a set kept in insertion order. */
  function Add(s: seq<string>, x: string): seq<string>
  {
    if x in s then s else s + [x]
  }

  /** Adding `xs` one by one. */
  function AddAll(s: seq<string>, xs: seq<string>): seq<string>
  {
    if |xs| == 0 then s else Add(AddAll(s, xs[..|xs| - 1]), xs[|xs| - 1])
  }

  /** Adding one more string after `xs`. */
  lemma AddAllSnoc(s: seq<string>, xs: seq<string>, x: string)
    ensures AddAll(s, xs + [x]) == Add(AddAll(s, xs), x)
  {
    assert (xs + [x])[..|xs|] == xs;
  }

  /** No string occurs twice. */
  predicate NoDup(s: seq<string>)
  {
    forall i, j :: 0 <= i < j < |s| ==> s[i] != s[j]
  }

  /**
   * Adding keeps the set free of duplicates, keeps what was there as a
   * prefix, and ends up holding exactly the old elements and the added ones.
   */
  lemma {:induction false} AddAllFacts(s: seq<string>, xs: seq<string>)
    requires NoDup(s)
    ensures var r := AddAll(s, xs);
      && NoDup(r)
      && |s| <= |r| && r[..|s|] == s
      && (forall x :: x in r <==> x in s || x in xs)
  {
    if |xs| > 0 {
      var init := xs[..|xs| - 1];
      var last := xs[|xs| - 1];
      AddAllFacts(s, init);
      var p := AddAll(s, init);
      assert xs == init + [last];
      if last !in p {
        assert (p + [last])[..|s|] == p[..|s|];
      }
    }
  }

  /** The set of `getSuggestions` before slicing: matching keys, then matching aliases. */
  function Matches(q: string): seq<string>
  {
    AddAll(AddAll([], Filter(DbKeys(), q)), Filter(AliasKeys(), q))
  }

  /** `toUpperCase` on one character, restricted to ASCII. */
  function UpperChar(c: char): char
  {
    if 'a' <= c <= 'z' then (c as int - 32) as char else c
  }

  /** `s.charAt(0).toUpperCase() + s.slice(1)` */
  function Capitalize(s: string): (r: string)
    ensures |r| == |s|
  {
    if |s| == 0 then s else [UpperChar(s[0])] + s[1..]
  }

  /** How many suggestions are shown at most. */
  const MaxSuggestions: nat := 6

  /** `getSuggestions`: the first six matches, capitalised. */
  function Suggestions(query: string): seq<string>
  {
    if |query| == 0 then []
    else
      var m := Matches(Normalize(query));
      var top := if |m| <= MaxSuggestions then m else m[..MaxSuggestions];
      seq(|top|, i requires 0 <= i < |top| => Capitalize(top[i]))
  }

  /** `getSuggestions` as the source runs it: two passes filling the set, then the slice. */
  method GetSuggestions(query: string) returns (r: seq<string>)
    ensures r == Suggestions(query)
  {
    if |query| < 1 {
      return [];
    }
    var lowerQ := Normalize(query);
    var matches := AddMatching([], DbKeys(), lowerQ);
    matches := AddMatching(matches, AliasKeys(), lowerQ);
    var top := if |matches| <= MaxSuggestions then matches else matches[..MaxSuggestions];
    r := seq(|top|, k requires 0 <= k < |top| => Capitalize(top[k]));
  }

  /** One `forEach` pass of `getSuggestions`: every string of `keys` containing `q` is added to the set. */
  method AddMatching(start: seq<string>, keys: seq<string>, q: string) returns (matches: seq<string>)
    ensures matches == AddAll(start, Filter(keys, q))
  {
    matches := start;
    var i := 0;
    while i < |keys|
      invariant 0 <= i <= |keys|
      invariant matches == AddAll(start, Filter(keys[..i], q))
    {
      var key := keys[i];
      assert keys[..i + 1] == keys[..i] + [key];
      FilterSnoc(keys[..i], key, q);
      AddAllSnoc(start, Filter(keys[..i], q), key);
      ghost var before := Filter(keys[..i], q);
      if Contains(key, q) {
        matches := if key in matches then matches else matches + [key];
        assert Filter(keys[..i + 1], q) == before + [key];
      } else {
        assert Filter(keys[..i + 1], q) == before + [];
        assert before + [] == before;
      }
      i := i + 1;
    }
    assert keys[..i] == keys;
  }

  /** An empty query suggests nothing, and no query suggests more than six. */
  lemma SuggestionsBounded(query: string)
    ensures query == "" ==> Suggestions(query) == []
    ensures |Suggestions(query)| <= MaxSuggestions
  {
    if |query| > 0 {
      var m := Matches(Normalize(query));
      var top := if |m| <= MaxSuggestions then m else m[..MaxSuggestions];
      assert |top| <= MaxSuggestions;
      assert Suggestions(query) == seq(|top|, i requires 0 <= i < |top| => Capitalize(top[i]));
    }
  }

  /**
   * The matches hold every key and alias containing the query and nothing
   * else, without duplicates, with the matching keys first in `DB` order.
   */
  lemma MatchesExact(q: string)
    ensures var m := Matches(q);
      && NoDup(m)
      && (forall x :: x in m <==> (x in DbKeys() || x in AliasKeys()) && Contains(x, q))
      && var p := AddAll([], Filter(DbKeys(), q));
         && |p| <= |m| && m[..|p|] == p
         && (forall x :: x in p <==> x in DbKeys() && Contains(x, q))
  {
    FilterExact(DbKeys(), q);
    FilterExact(AliasKeys(), q);
    AddAllFacts([], Filter(DbKeys(), q));
    AddAllFacts(AddAll([], Filter(DbKeys(), q)), Filter(AliasKeys(), q));
  }

  /** Capitalising is one-to-one on strings that do not start with a capital. */
  lemma CapitalizeInjective(a: string, b: string)
    requires |a| > 0 && |b| > 0 && !IsUpper(a[0]) && !IsUpper(b[0])
    requires Capitalize(a) == Capitalize(b)
    ensures a == b
  {
    assert a[1..] == Capitalize(a)[1..] == Capitalize(b)[1..] == b[1..];
    assert a == [a[0]] + a[1..] && b == [b[0]] + b[1..];
  }

  /** Every match is a non-empty string without a leading capital that contains the query. */
  lemma MatchesShape(q: string)
    ensures NoDup(Matches(q))
    ensures forall x :: x in Matches(q) ==> |x| > 0 && !IsUpper(x[0]) && Contains(x, q)
  {
    MatchesExact(q);
    TableKeysShape();
  }

  /**
   * Every suggestion is a matching key or alias with its first letter
   * capitalised, and no suggestion is shown twice.
   */
  lemma SuggestionsSound(query: string)
    requires |query| > 0
    ensures var s := Suggestions(query);
      var m := Matches(Normalize(query));
      && |s| == (if |m| <= MaxSuggestions then |m| else MaxSuggestions)
      && (forall i :: 0 <= i < |s| ==> s[i] == Capitalize(m[i]) && Contains(m[i], Normalize(query)))
      && NoDup(s)
  {
    var q := Normalize(query);
    var m := Matches(q);
    MatchesShape(q);
    var top := if |m| <= MaxSuggestions then m else m[..MaxSuggestions];
    var s := Suggestions(query);
    assert s == seq(|top|, i requires 0 <= i < |top| => Capitalize(top[i]));
    forall i | 0 <= i < |s| ensures s[i] == Capitalize(m[i]) && Contains(m[i], q) {
      assert top[i] == m[i] && m[i] in m;
    }
    forall i, j | 0 <= i < j < |s| ensures s[i] != s[j] {
      assert m[i] in m && m[j] in m;
      if s[i] == s[j] {
        CapitalizeInjective(m[i], m[j]);
      }
    }
  }

  /** `rit.` is not itself a key of `DB`. */
  lemma RitIsNoKey()
    ensures forall i :: 0 <= i < DbSize ==> DbKey(i) != "rit."
  {
  }

  /** `rit.` is already normalised. */
  lemma NormalizeRit()
    ensures Normalize("rit.") == "rit."
  {
    var s := "rit.";
    assert Trimmed(s);
    TrimOfTrimmed(s);
    assert forall i :: 0 <= i < |s| ==> !IsUpper(s[i]);
    LowerOfLowercase(s);
  }

  /** `rit.` is an alias of `ritardando`. */
  lemma AliasRit()
    ensures AliasFrom("rit.", 0) == Some("ritardando")
  {
    assert AliasAt(12) == ("rit.", "ritardando");
    assert AliasFrom("rit.", 12) == Some("ritardando");
    assert AliasFrom("rit.", 11) == Some("ritardando");
    assert AliasFrom("rit.", 10) == Some("ritardando");
    assert AliasFrom("rit.", 9) == Some("ritardando");
    assert AliasFrom("rit.", 8) == Some("ritardando");
    assert AliasFrom("rit.", 7) == Some("ritardando");
    assert AliasFrom("rit.", 6) == Some("ritardando");
    assert AliasFrom("rit.", 5) == Some("ritardando");
    assert AliasFrom("rit.", 4) == Some("ritardando");
    assert AliasFrom("rit.", 3) == Some("ritardando");
    assert AliasFrom("rit.", 2) == Some("ritardando");
    assert AliasFrom("rit.", 1) == Some("ritardando");
    assert AliasFrom("rit.", 0) == Some("ritardando");
  }

  /** The lookup sees only the normalised term: padding and capitals do not matter. */
  lemma SearchNormalized(term: string)
    ensures Search(term) == Search(Normalize(term))
  {
    NormalizeIdempotent(term);
  }

  /** The abbreviation `rit.` finds `ritardando` through the alias table. */
  lemma SearchExample()
    ensures Search("rit.") == Some("ritardando")
  {
    NormalizeRit();
    RitIsNoKey();
    AliasRit();
    assert "rit." !in DbKeys();
    assert DbKeys()[10] == "ritardando";
  }
}
