/** The names of the per-worker processing lists, and which of them a sweep selects. */
module ProcessingKeys {

  const PREFIX := "shieldscan:processing:"

  datatype Parsed = Malformed | Parsed(worker: string, priority: string)

  function ProcessingKey(worker: string, priority: string): string {
    PREFIX + worker + ":" + priority
  }

  function LastIndex(s: string, c: char): (i: int)
    ensures -1 <= i < |s|
    ensures i == -1 ==> c !in s
    ensures i >= 0 ==> s[i] == c && c !in s[i + 1..]
  {
    if s == "" then -1
    else if s[|s| - 1] == c then |s| - 1
    else
      assert s == s[..|s| - 1] + [s[|s| - 1]];
      LastIndex(s[..|s| - 1], c)
  }

  lemma {:induction false} LastIndexIs(a: string, c: char, b: string)
    requires c !in b
    ensures LastIndex(a + [c] + b, c) == |a|
    decreases |b|
  {
    var s := a + [c] + b;
    if b != "" {
      assert s[|s| - 1] == b[|b| - 1] && b[|b| - 1] in b;
      assert s[..|s| - 1] == a + [c] + b[..|b| - 1];
      LastIndexIs(a, c, b[..|b| - 1]);
    }
  }

  function SplitProcessingKey(key: string): Parsed {
    if !(PREFIX <= key) then Malformed
    else
      var rest := key[|PREFIX|..];
      var i := LastIndex(rest, ':');
      if i <= 0 || i == |rest| - 1 then Malformed
      else Parsed(rest[..i], rest[i + 1..])
  }

  /** A name is recovered exactly when the worker id is non-empty and the priority non-empty and free of colons;
      the worker id may contain any number of colons. */
  lemma KeyRoundTrip(worker: string, priority: string)
    ensures SplitProcessingKey(ProcessingKey(worker, priority)) == Parsed(worker, priority)
       <==> worker != "" && priority != "" && ':' !in priority
  {
    var key := ProcessingKey(worker, priority);
    var rest := key[|PREFIX|..];
    assert rest == worker + [':'] + priority;
    if ':' !in priority {
      LastIndexIs(worker, ':', priority);
      assert rest[..|worker|] == worker && rest[|worker| + 1..] == priority;
    } else if !SplitProcessingKey(key).Malformed? {
      assert ':' !in SplitProcessingKey(key).priority;
    }
  }

  /** Every accepted name is rebuilt from its parts, and the parts satisfy the round-trip condition. */
  lemma SplitRebuilds(key: string)
    requires SplitProcessingKey(key).Parsed?
    ensures var p := SplitProcessingKey(key);
            && ProcessingKey(p.worker, p.priority) == key
            && p.worker != "" && p.priority != "" && ':' !in p.priority
  {
    var rest := key[|PREFIX|..];
    var i := LastIndex(rest, ':');
    assert rest == rest[..i] + ":" + rest[i + 1..];
    assert key == PREFIX + rest;
  }

  /** No two lists share a name. */
  lemma KeysDiffer(w: string, p: string, w': string, p': string)
    requires p != "" && p' != "" && ':' !in p && ':' !in p' && w != "" && w' != ""
    requires ProcessingKey(w, p) == ProcessingKey(w', p')
    ensures w == w' && p == p'
  {
    KeyRoundTrip(w, p);
    KeyRoundTrip(w', p');
  }

  /** The scan of the processing lists: batch after batch, keeping the well-formed names of other, absent workers. */
  method OrphanProcessingKeys(batches: seq<seq<string>>, self: string, live: set<string>) returns (keys: seq<string>)
    ensures forall k :: k in keys <==>
              && (exists i :: 0 <= i < |batches| && k in batches[i])
              && SplitProcessingKey(k).Parsed?
              && SplitProcessingKey(k).worker != self
              && SplitProcessingKey(k).worker !in live
  {
    keys := [];
    var cursor := 0;
    while cursor < |batches|
      invariant 0 <= cursor <= |batches|
      invariant forall k :: k in keys <==>
                  (exists i :: 0 <= i < cursor && k in batches[i]) && Orphan(k, self, live)
    {
      var j := 0;
      var batch := batches[cursor];
      ghost var before := keys;
      while j < |batch|
        invariant 0 <= j <= |batch|
        invariant forall k :: k in keys <==> k in before || (k in batch[..j] && Orphan(k, self, live))
      {
        var parsed := SplitProcessingKey(batch[j]);
        assert batch[..j + 1] == batch[..j] + [batch[j]];
        if parsed.Parsed? && parsed.worker != self && parsed.worker !in live {
          keys := keys + [batch[j]];
        }
        j := j + 1;
      }
      assert batch[..|batch|] == batch;
      cursor := cursor + 1;
    }
  }

  predicate Orphan(k: string, self: string, live: set<string>) {
    && SplitProcessingKey(k).Parsed?
    && SplitProcessingKey(k).worker != self
    && SplitProcessingKey(k).worker !in live
  }
}
