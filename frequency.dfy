/** The two frequency miners of the analyzer: the most frequent words and
    the repeated two-word phrases. Each fills a count dictionary in a loop,
    takes its entries in insertion order, sorts them by count, largest first,
    with a stable sort, and keeps the keys of the first few. */
module Frequency {
  import opened Text
  import opened Utils

  /** How often `x` occurs in `s`. */
  function Occurrences(s: seq<string>, x: string): nat
    decreases |s|
  {
    if s == [] then 0
    else Occurrences(s[..|s| - 1], x) + (if s[|s| - 1] == x then 1 else 0)
  }

  lemma {:induction false} OccurrencesPositive(s: seq<string>, x: string)
    ensures x in s <==> Occurrences(s, x) > 0
    decreases |s|
  {
    if s != [] {
      var init := s[..|s| - 1];
      OccurrencesPositive(init, x);
      assert s == init + [s[|s| - 1]];
    }
  }

  // ----- the count dictionary -----

  /** The dictionary the loops build from `s`, one
      `dict[x] = (dict[x] || 0) + 1` per element. */
  function CountMap(s: seq<string>): map<string, nat>
    decreases |s|
  {
    if s == [] then map[]
    else
      var m := CountMap(s[..|s| - 1]);
      var x := s[|s| - 1];
      m[x := (if x in m then m[x] else 0) + 1]
  }

  /** The dictionary holds exactly the elements of `s`, each mapped to its
      number of occurrences. */
  lemma {:induction false} CountMapSpec(s: seq<string>)
    ensures forall k :: k in CountMap(s) <==> k in s
    ensures forall k :: k in CountMap(s) ==> CountMap(s)[k] == Occurrences(s, k)
    decreases |s|
  {
    if s != [] {
      var init := s[..|s| - 1];
      CountMapSpec(init);
      assert s == init + [s[|s| - 1]];
      OccurrencesPositive(init, s[|s| - 1]);
    }
  }

  /** One `dict[x] = (dict[x] || 0) + 1` keeps the dictionary and its key
      order in step with the counted sequence: an absent key is appended to
      the key order with count 1, a present one is incremented in place. */
  lemma CountStep(counts: map<string, nat>, keys: seq<string>, s: seq<string>, x: string)
    requires counts == CountMap(s) && keys == Distinct(s)
    ensures counts[x := (if x in counts then counts[x] else 0) + 1] == CountMap(s + [x])
    ensures (if x in counts then keys else keys + [x]) == Distinct(s + [x])
  {
    var t := s + [x];
    assert t[..|t| - 1] == s;
    CountMapSpec(s);
    DistinctSpec(s);
  }

  /** One entry of `Object.entries(dict)`. */
  datatype Entry = Entry(key: string, count: nat)

  /** `Object.entries(dict)`, in key order. */
  function ObjectEntries(keys: seq<string>, counts: map<string, nat>): (r: seq<Entry>)
    requires forall i :: 0 <= i < |keys| ==> keys[i] in counts
    ensures |r| == |keys|
    ensures forall i :: 0 <= i < |keys| ==> r[i] == Entry(keys[i], counts[keys[i]])
  {
    seq(|keys|, i requires 0 <= i < |keys| => Entry(keys[i], counts[keys[i]]))
  }

  /** The entries of the dictionary that counts `s`. */
  function Entries(s: seq<string>): (r: seq<Entry>)
    ensures |r| == |Distinct(s)|
    ensures forall i :: 0 <= i < |r| ==> r[i] == Entry(Distinct(s)[i], Occurrences(s, Distinct(s)[i]))
  {
    var d := Distinct(s);
    seq(|d|, i requires 0 <= i < |d| => Entry(d[i], Occurrences(s, d[i])))
  }

  /** `Object.entries` of the dictionary that counts `s` are `Entries(s)`. */
  lemma EntriesOfCounts(s: seq<string>)
    ensures forall i :: 0 <= i < |Distinct(s)| ==> Distinct(s)[i] in CountMap(s)
    ensures ObjectEntries(Distinct(s), CountMap(s)) == Entries(s)
  {
    CountMapSpec(s);
    DistinctSpec(s);
    assert forall i :: 0 <= i < |Distinct(s)| ==> Distinct(s)[i] in s;
  }

  function Keys(es: seq<Entry>): (r: seq<string>)
    ensures |r| == |es|
    ensures forall i :: 0 <= i < |es| ==> r[i] == es[i].key
  {
    seq(|es|, i requires 0 <= i < |es| => es[i].key)
  }

  lemma EntriesFacts(s: seq<string>)
    ensures Keys(Entries(s)) == Distinct(s)
    ensures forall e :: e in Entries(s) ==> e.key in s && e.count == Occurrences(s, e.key)
  {
  }

  // ----- sorting by count -----

  predicate NonIncreasing(es: seq<Entry>) {
    forall i, j :: 0 <= i < j < |es| ==> es[i].count >= es[j].count
  }

  /** Inserts `e` before the first entry whose count is not larger, so that
      earlier entries stay ahead of later ones with the same count. */
  function Insert(e: Entry, xs: seq<Entry>): (r: seq<Entry>)
    ensures multiset(r) == multiset(xs) + multiset{e}
    ensures |r| == |xs| + 1
    decreases |xs|
  {
    if xs == [] || xs[0].count <= e.count then [e] + xs
    else
      assert xs == [xs[0]] + xs[1..];
      [xs[0]] + Insert(e, xs[1..])
  }

  lemma {:induction false} InsertSorted(e: Entry, xs: seq<Entry>)
    requires NonIncreasing(xs)
    ensures NonIncreasing(Insert(e, xs))
    decreases |xs|
  {
    if xs != [] && xs[0].count > e.count {
      var tail := xs[1..];
      assert NonIncreasing(tail);
      InsertSorted(e, tail);
      var rest := Insert(e, tail);
      forall i | 0 <= i < |rest|
        ensures rest[i].count <= xs[0].count
      {
        assert rest[i] in multiset(rest);
        if rest[i] != e {
          assert rest[i] in tail;
        }
      }
      assert Insert(e, xs) == [xs[0]] + rest;
    }
  }

  /** `entries.sort(([, a], [, b]) => b - a)`: a stable sort, largest count
      first. */
  function SortByCount(es: seq<Entry>): (r: seq<Entry>)
    ensures multiset(r) == multiset(es)
    ensures |r| == |es|
    ensures NonIncreasing(r)
    decreases |es|
  {
    if es == [] then []
    else
      assert es == [es[0]] + es[1..];
      var sorted := SortByCount(es[1..]);
      InsertSorted(es[0], sorted);
      Insert(es[0], sorted)
  }

  /** No two entries share a key, as in the entries of one dictionary. */
  predicate DistinctKeys(es: seq<Entry>) {
    forall i, j :: 0 <= i < j < |es| ==> es[i].key != es[j].key
  }

  predicate KeyAbsent(key: string, es: seq<Entry>) {
    forall i :: 0 <= i < |es| ==> es[i].key != key
  }

  lemma DistinctKeysOfKeys(es: seq<Entry>)
    ensures DistinctKeys(es) <==> NoDuplicates(Keys(es))
  {
    if DistinctKeys(es) {
      assert NoDuplicates(Keys(es));
    }
  }

  lemma {:induction false} InsertKeys(e: Entry, xs: seq<Entry>)
    requires DistinctKeys(xs) && KeyAbsent(e.key, xs)
    ensures DistinctKeys(Insert(e, xs))
    decreases |xs|
  {
    if xs != [] && xs[0].count > e.count {
      var tail := xs[1..];
      InsertKeys(e, tail);
      var rest := Insert(e, tail);
      forall i | 0 <= i < |rest|
        ensures rest[i].key != xs[0].key
      {
        assert rest[i] in multiset(rest);
        if rest[i] != e {
          assert rest[i] in tail;
        }
      }
      assert Insert(e, xs) == [xs[0]] + rest;
    }
  }

  /** The sort keeps the keys distinct. */
  lemma {:induction false} SortKeys(es: seq<Entry>)
    requires DistinctKeys(es)
    ensures DistinctKeys(SortByCount(es))
    decreases |es|
  {
    if es != [] {
      var rest := es[1..];
      SortKeys(rest);
      var sorted := SortByCount(rest);
      forall i | 0 <= i < |sorted|
        ensures sorted[i].key != es[0].key
      {
        assert sorted[i] in multiset(rest);
        assert sorted[i] in rest;
      }
      InsertKeys(es[0], sorted);
    }
  }

  /** What `.sort(...).slice(0, k)` keeps: at most k entries of the input,
      with distinct keys, largest count first. */
  lemma TopEntriesKept(es: seq<Entry>, k: nat)
    requires DistinctKeys(es)
    ensures var r := Take(SortByCount(es), k);
      && |r| <= k
      && DistinctKeys(r)
      && NonIncreasing(r)
      && (forall i :: 0 <= i < |r| ==> r[i] in es)
  {
    var s := SortByCount(es);
    var r := Take(s, k);
    SortKeys(es);
    assert r == s[..|r|];
    forall i | 0 <= i < |r|
      ensures r[i] in es
    {
      assert r[i] == s[i];
      assert s[i] in multiset(es);
    }
  }

  /** Every entry the cut drops has a count no larger than any entry it
      keeps, which only happens once k entries are kept. */
  lemma TopEntriesDropped(es: seq<Entry>, k: nat, dropped: Entry)
    requires dropped in es && dropped !in Take(SortByCount(es), k)
    ensures var r := Take(SortByCount(es), k);
      |r| == k && forall i :: 0 <= i < |r| ==> r[i].count >= dropped.count
  {
    var s := SortByCount(es);
    var r := Take(s, k);
    assert dropped in multiset(s);
    var m :| 0 <= m < |s| && s[m] == dropped;
    assert r == s[..|r|];
    assert forall i :: 0 <= i < |r| ==> r[i] != dropped;
  }

  lemma {:induction false} FilterKeys(es: seq<Entry>, p: Entry -> bool)
    requires DistinctKeys(es)
    ensures DistinctKeys(Filter(es, p))
    decreases |es|
  {
    if es != [] {
      var rest := es[1..];
      FilterKeys(rest, p);
      if p(es[0]) {
        var f := Filter(rest, p);
        forall i | 0 <= i < |f|
          ensures f[i].key != es[0].key
        {
          assert f[i] in rest;
        }
        assert Filter(es, p) == [es[0]] + f;
      }
    }
  }

  // ----- most frequent words -----

  /** `getMostFrequentWords(text, limit)`. */
  function MostFrequentWords(text: string, limit: nat): seq<string> {
    Keys(Take(SortByCount(Entries(Words(text))), limit))
  }

  /** The keys of the first k entries after the sort: distinct, each the key
      of an entry of the input, in non-increasing order of count. */
  lemma TopKeys(es: seq<Entry>, k: nat)
    requires DistinctKeys(es)
    ensures var top := Take(SortByCount(es), k);
      && |top| <= k
      && NoDuplicates(Keys(top))
      && (forall i :: 0 <= i < |top| ==> top[i] in es)
      && NonIncreasing(top)
  {
    TopEntriesKept(es, k);
    DistinctKeysOfKeys(Take(SortByCount(es), k));
  }

  /** The entries of a count dictionary have distinct keys, and each holds
      the number of occurrences of its key. */
  lemma EntriesKeys(s: seq<string>)
    ensures DistinctKeys(Entries(s))
    ensures forall e :: e in Entries(s) ==> e.key in s && e.count == Occurrences(s, e.key)
  {
    EntriesFacts(s);
    DistinctSpec(s);
    DistinctKeysOfKeys(Entries(s));
  }

  lemma KeysOf(es: seq<Entry>)
    ensures forall e :: e in es ==> e.key in Keys(es)
  {
    forall e | e in es
      ensures e.key in Keys(es)
    {
      var i :| 0 <= i < |es| && es[i] == e;
      assert Keys(es)[i] == e.key;
    }
  }

  /** Each word of the text has its entry among the dictionary's entries. */
  lemma EntryOf(s: seq<string>, w: string)
    requires w in s
    ensures Entry(w, Occurrences(s, w)) in Entries(s)
  {
    var d := Distinct(s);
    DistinctSpec(s);
    var m :| 0 <= m < |d| && d[m] == w;
    assert Entries(s)[m] == Entry(w, Occurrences(s, w));
  }

  /** The most frequent words are at most `limit` distinct words of the text
      (lower case, longer than two characters), in non-increasing order of
      their counts. */
  lemma MostFrequentWordsSpec(text: string, limit: nat)
    ensures var r, ws := MostFrequentWords(text, limit), Words(text);
      && |r| <= limit
      && NoDuplicates(r)
      && (forall i :: 0 <= i < |r| ==> r[i] in ws && |r[i]| > 2)
      && (forall i, j :: 0 <= i < j < |r| ==> Occurrences(ws, r[i]) >= Occurrences(ws, r[j]))
  {
    var ws := Words(text);
    var es := Entries(ws);
    EntriesKeys(ws);
    TopKeys(es, limit);
  }

  /** Every word left out of the most frequent words occurs no more often
      than each word kept, which only happens when `limit` words are kept. */
  lemma MostFrequentWordsComplete(text: string, limit: nat, w: string)
    requires w in Words(text) && w !in MostFrequentWords(text, limit)
    ensures var r, ws := MostFrequentWords(text, limit), Words(text);
      |r| == limit && forall i :: 0 <= i < |r| ==> Occurrences(ws, r[i]) >= Occurrences(ws, w)
  {
    var ws := Words(text);
    var es := Entries(ws);
    EntriesKeys(ws);
    EntryOf(ws, w);
    var e := Entry(w, Occurrences(ws, w));
    var top := Take(SortByCount(es), limit);
    TopKeys(es, limit);
    KeysOf(top);
    TopEntriesDropped(es, limit, e);
  }

  /** `getMostFrequentWords`: counts the words in a dictionary, then sorts
      its entries. */
  method GetMostFrequentWords(text: string, limit: nat) returns (r: seq<string>)
    ensures r == MostFrequentWords(text, limit)
  {
    var words := Words(text);
    var keys: seq<string> := [];
    var wordCount: map<string, nat> := map[];
    for i := 0 to |words|
      invariant wordCount == CountMap(words[..i]) && keys == Distinct(words[..i])
    {
      var word := words[i];
      CountStep(wordCount, keys, words[..i], word);
      assert words[..i + 1] == words[..i] + [word];
      if word !in wordCount {
        keys := keys + [word];
      }
      wordCount := wordCount[word := (if word in wordCount then wordCount[word] else 0) + 1];
    }
    assert words[..|words|] == words;
    EntriesOfCounts(words);
    r := Keys(Take(SortByCount(ObjectEntries(keys, wordCount)), limit));
  }

  // ----- signature phrases -----

  /** The sentences phrases are taken from: the pieces of
      `text.split(/[.!?]+/)` whose trimmed length, in UTF-16 code units,
      exceeds 10. */
  function PhraseSentences(text: string): (r: seq<string>)
    ensures forall i :: 0 <= i < |r| ==> LongSentence(r[i])
  {
    Filter(Split(text, IsSentenceEnd), LongSentence)
  }

  /** `sentence.trim().length > 10`, the length in UTF-16 code units. */
  predicate LongSentence(sentence: string) {
    Utf16Length(Trim(sentence)) > 10
  }

  /** `sentence.trim().split(/\s+/)`. */
  function SentenceWords(sentence: string): seq<string> {
    Split(Trim(sentence), IsSpace)
  }

  /** The lower-cased pairs of neighbouring words. */
  function Bigrams(words: seq<string>): (r: seq<string>)
    ensures |r| == if |words| == 0 then 0 else |words| - 1
    ensures forall k :: 0 <= k < |r| ==> r[k] == ToLower(words[k] + " " + words[k + 1])
  {
    if |words| <= 1 then []
    else seq(|words| - 1, k requires 0 <= k < |words| - 1 => ToLower(words[k] + " " + words[k + 1]))
  }

  /** Every phrase the loops count, sentence after sentence. */
  function AllBigrams(sentences: seq<string>): seq<string>
    decreases |sentences|
  {
    if sentences == [] then []
    else AllBigrams(sentences[..|sentences| - 1]) + Bigrams(SentenceWords(sentences[|sentences| - 1]))
  }

  /** Every counted phrase is a pair of neighbouring words of one of the
      sentences. */
  lemma {:induction false} AllBigramsFrom(sentences: seq<string>, x: string)
    requires x in AllBigrams(sentences)
    ensures exists i, k ::
      (0 <= i < |sentences| && 0 <= k < |Bigrams(SentenceWords(sentences[i]))|
       && x == Bigrams(SentenceWords(sentences[i]))[k])
    decreases |sentences|
  {
    var init := sentences[..|sentences| - 1];
    var last := Bigrams(SentenceWords(sentences[|sentences| - 1]));
    if x in AllBigrams(init) {
      AllBigramsFrom(init, x);
      var i, k :| 0 <= i < |init| && 0 <= k < |Bigrams(SentenceWords(init[i]))| && x == Bigrams(SentenceWords(init[i]))[k];
      assert sentences[i] == init[i];
    } else {
      var k :| 0 <= k < |last| && last[k] == x;
      assert x == Bigrams(SentenceWords(sentences[|sentences| - 1]))[k];
    }
  }

  predicate Repeated(e: Entry) {
    e.count >= 2
  }

  /** `extractSignaturePhrases(text)`. */
  function SignaturePhrases(text: string): seq<string> {
    Keys(Take(SortByCount(Filter(Entries(AllBigrams(PhraseSentences(text))), Repeated)), 5))
  }

  /** The signature phrases are at most five distinct phrases, each a pair of
      neighbouring words of a sentence longer than ten characters and
      counted at least twice, in non-increasing order of their counts. */
  lemma SignaturePhrasesSpec(text: string)
    ensures var r, ps := SignaturePhrases(text), AllBigrams(PhraseSentences(text));
      && |r| <= 5
      && NoDuplicates(r)
      && (forall i :: 0 <= i < |r| ==> r[i] in ps && Occurrences(ps, r[i]) >= 2)
      && (forall i, j :: 0 <= i < j < |r| ==> Occurrences(ps, r[i]) >= Occurrences(ps, r[j]))
  {
    var ps := AllBigrams(PhraseSentences(text));
    var all := Entries(ps);
    EntriesKeys(ps);
    FilterKeys(all, Repeated);
    TopKeys(Filter(all, Repeated), 5);
  }

  /** A repeated phrase left out of the signature phrases occurs no more
      often than each phrase kept, which only happens when five are kept. */
  lemma SignaturePhrasesComplete(text: string, p: string)
    requires var ps := AllBigrams(PhraseSentences(text));
      p in ps && Occurrences(ps, p) >= 2 && p !in SignaturePhrases(text)
    ensures var r, ps := SignaturePhrases(text), AllBigrams(PhraseSentences(text));
      |r| == 5 && forall i :: 0 <= i < |r| ==> Occurrences(ps, r[i]) >= Occurrences(ps, p)
  {
    var ps := AllBigrams(PhraseSentences(text));
    var all := Entries(ps);
    EntriesKeys(ps);
    EntryOf(ps, p);
    var e := Entry(p, Occurrences(ps, p));
    var es := Filter(all, Repeated);
    assert e in es;
    FilterKeys(all, Repeated);
    var top := Take(SortByCount(es), 5);
    TopKeys(es, 5);
    KeysOf(top);
    TopEntriesDropped(es, 5, e);
  }

  /** Each signature phrase comes from one sentence whose trimmed length
      exceeds ten characters. */
  lemma SignaturePhrasesFromLongSentences(text: string, phrase: string)
    requires phrase in SignaturePhrases(text)
    ensures exists s, k ::
      (s in PhraseSentences(text) && LongSentence(s)
       && 0 <= k < |Bigrams(SentenceWords(s))| && phrase == Bigrams(SentenceWords(s))[k])
  {
    SignaturePhrasesSpec(text);
    var ss := PhraseSentences(text);
    AllBigramsFrom(ss, phrase);
    var i, k :| 0 <= i < |ss| && 0 <= k < |Bigrams(SentenceWords(ss[i]))| && phrase == Bigrams(SentenceWords(ss[i]))[k];
    var sentence := ss[i];
    assert sentence in ss && LongSentence(sentence);
    assert 0 <= k < |Bigrams(SentenceWords(sentence))| && phrase == Bigrams(SentenceWords(sentence))[k];
  }

  lemma PrefixStep(seen: seq<string>, s: seq<string>, i: nat)
    requires i < |s|
    ensures seen + s[..i + 1] == (seen + s[..i]) + [s[i]]
  {
    assert s[..i + 1] == s[..i] + [s[i]];
  }

  /** The inner loop of `extractSignaturePhrases`: counts the pairs of
      neighbouring words of one sentence into the dictionary. */
  method CountPhrases(words: seq<string>, counts: map<string, nat>, keys: seq<string>, ghost seen: seq<string>)
    returns (counts': map<string, nat>, keys': seq<string>)
    requires counts == CountMap(seen) && keys == Distinct(seen)
    ensures counts' == CountMap(seen + Bigrams(words)) && keys' == Distinct(seen + Bigrams(words))
  {
    ghost var bigrams := Bigrams(words);
    ghost var counted := seen;
    counts', keys' := counts, keys;
    var i := 0;
    assert seen + bigrams[..0] == seen;
    while i < |words| - 1
      invariant 0 <= i <= |bigrams|
      invariant counted == seen + bigrams[..i]
      invariant counts' == CountMap(counted) && keys' == Distinct(counted)
    {
      var phrase := ToLower(words[i] + " " + words[i + 1]);
      assert phrase == bigrams[i];
      PrefixStep(seen, bigrams, i);
      CountStep(counts', keys', counted, phrase);
      if phrase !in counts' {
        keys' := keys' + [phrase];
      }
      counts' := counts'[phrase := (if phrase in counts' then counts'[phrase] else 0) + 1];
      counted := counted + [phrase];
      i := i + 1;
    }
    assert bigrams[..i] == bigrams;
  }

  /** `extractSignaturePhrases`: counts the phrases of every sentence in a
      dictionary, then filters, sorts and cuts its entries. */
  method ExtractSignaturePhrases(text: string) returns (r: seq<string>)
    ensures r == SignaturePhrases(text)
  {
    var sentences := PhraseSentences(text);
    var phraseCount, keys := CountSentencePhrases(sentences);
    EntriesOfCounts(AllBigrams(sentences));
    r := Keys(Take(SortByCount(Filter(ObjectEntries(keys, phraseCount), Repeated)), 5));
  }

  /** The outer loop of `extractSignaturePhrases`: the dictionary of phrase
      counts over all sentences, with its keys in insertion order. */
  method CountSentencePhrases(sentences: seq<string>) returns (phraseCount: map<string, nat>, keys: seq<string>)
    ensures phraseCount == CountMap(AllBigrams(sentences)) && keys == Distinct(AllBigrams(sentences))
  {
    keys := [];
    phraseCount := map[];
    for n := 0 to |sentences|
      invariant phraseCount == CountMap(AllBigrams(sentences[..n]))
      invariant keys == Distinct(AllBigrams(sentences[..n]))
    {
      var words := SentenceWords(sentences[n]);
      phraseCount, keys := CountPhrases(words, phraseCount, keys, AllBigrams(sentences[..n]));
      assert sentences[..n + 1][..n] == sentences[..n];
    }
    assert sentences[..|sentences|] == sentences;
  }
}
