/** What the handlers rely on the document store for when they run a query
    (`where`, `orderBy`, `offset`, `limit`). The store is an external service:
    a query's answer is a parameter of the handler, and `Answers` states what
    the store promises about it. */
module DocumentStore {
  import opened Common

  datatype Order = Ascending | Descending

  /** A query over one collection: the `where` filter, the `orderBy` key and
      direction, the number of documents skipped and the largest number kept. */
  datatype Query<-D> = Query(keep: D -> bool, key: D -> real, order: Order, offset: nat, limit: Option<nat>)

  /** The ids of a list of `(id, document)` pairs. */
  function Ids<D>(s: seq<(string, D)>): set<string> {
    set i | 0 <= i < |s| :: s[i].0
  }

  /** The ids of the documents of `table` that pass the filter. */
  ghost function Selected<D>(table: map<string, D>, keep: D -> bool): set<string> {
    set id | id in table && keep(table[id])
  }

  ghost predicate DistinctIds<D>(s: seq<(string, D)>) {
    forall i, j :: 0 <= i < j < |s| ==> s[i].0 != s[j].0
  }

  /** `all` lists every document of `table` that passes `keep`, each once and
      with its stored contents. */
  ghost predicate Lists<D>(table: map<string, D>, keep: D -> bool, all: seq<(string, D)>) {
    && (forall i :: 0 <= i < |all| ==> all[i].0 in table && table[all[i].0] == all[i].1 && keep(all[i].1))
    && DistinctIds(all)
    && (forall id :: id in table && keep(table[id]) ==> id in Ids(all))
  }

  predicate InOrder(x: real, y: real, order: Order) {
    if order == Ascending then x <= y else x >= y
  }

  ghost predicate Ordered<D>(s: seq<(string, D)>, key: D -> real, order: Order) {
    forall i, j :: 0 <= i < j < |s| ==> InOrder(key(s[i].1), key(s[j].1), order)
  }

  /** `.offset(offset).limit(limit)`: skip `offset` elements, keep at most
      `limit` of the rest. */
  function Window<T>(s: seq<T>, offset: nat, limit: Option<nat>): (w: seq<T>)
    ensures limit.Some? ==> |w| <= limit.value
    ensures offset + |w| <= |s| || w == []
    ensures forall i :: 0 <= i < |w| ==> offset + i < |s| && w[i] == s[offset + i]
    ensures |w| == if offset > |s| then 0
                   else if limit.Some? && limit.value < |s| - offset then limit.value
                   else |s| - offset
  {
    var rest := if offset <= |s| then s[offset..] else [];
    if limit.Some? && limit.value < |rest| then rest[..limit.value] else rest
  }

  /** `answer` is what the store may return for query `q` on `table`: the
      window of a complete, duplicate-free listing ordered by the key. */
  ghost predicate Answers<D(!new)>(table: map<string, D>, q: Query<D>, answer: seq<(string, D)>) {
    exists all :: Lists(table, q.keep, all) && Ordered(all, q.key, q.order) && answer == Window(all, q.offset, q.limit)
  }

  /** Every answer holds only stored documents that pass the filter, each once,
      in the requested order, and no more than the limit. */
  lemma AnswerSound<D(!new)>(table: map<string, D>, q: Query<D>, answer: seq<(string, D)>)
    requires Answers(table, q, answer)
    ensures forall i :: 0 <= i < |answer| ==>
      answer[i].0 in table && table[answer[i].0] == answer[i].1 && q.keep(answer[i].1)
    ensures DistinctIds(answer)
    ensures Ordered(answer, q.key, q.order)
    ensures q.limit.Some? ==> |answer| <= q.limit.value
  {
    var all :| Lists(table, q.keep, all) && Ordered(all, q.key, q.order) && answer == Window(all, q.offset, q.limit);
    forall i, j | 0 <= i < j < |answer|
      ensures answer[i].0 != answer[j].0 && InOrder(q.key(answer[i].1), q.key(answer[j].1), q.order)
    {
      assert answer[i] == all[q.offset + i] && answer[j] == all[q.offset + j];
    }
  }

  /** A duplicate-free list has as many ids as elements. */
  lemma {:induction false} DistinctIdsCount<D>(s: seq<(string, D)>)
    requires DistinctIds(s)
    ensures |Ids(s)| == |s|
    decreases |s|
  {
    if s != [] {
      var t, x := s[..|s| - 1], s[|s| - 1].0;
      assert DistinctIds(t);
      DistinctIdsCount(t);
      assert Ids(s) == Ids(t) + {x} by {
        forall id | id in Ids(s) ensures id in Ids(t) + {x} {
          var i :| 0 <= i < |s| && s[i].0 == id;
          if i < |s| - 1 { assert t[i] == s[i]; }
        }
        forall id | id in Ids(t) ensures id in Ids(s) {
          var i :| 0 <= i < |t| && t[i].0 == id;
          assert s[i] == t[i];
        }
      }
      assert x !in Ids(t) by {
        forall i | 0 <= i < |t| ensures t[i].0 != x {
          assert t[i] == s[i];
        }
      }
      assert |Ids(t) + {x}| == |Ids(t)| + 1;
    }
  }

  /** Without offset or limit the answer is the whole selection: exactly the
      documents that pass the filter, as many as there are. */
  lemma AnswerComplete<D(!new)>(table: map<string, D>, q: Query<D>, answer: seq<(string, D)>)
    requires Answers(table, q, answer)
    requires q.offset == 0 && q.limit.None?
    ensures Ids(answer) == Selected(table, q.keep)
    ensures |answer| == |Selected(table, q.keep)|
  {
    var all :| Lists(table, q.keep, all) && Ordered(all, q.key, q.order) && answer == Window(all, q.offset, q.limit);
    assert answer == all;
    forall id | id in Ids(answer) ensures id in Selected(table, q.keep) {
      var i :| 0 <= i < |answer| && answer[i].0 == id;
    }
    DistinctIdsCount(answer);
  }

  /** A query from the start in descending order returns the top of the
      selection: a selected document left out of the answer ranks no higher
      than any document in it. */
  lemma AnswerTop<D(!new)>(table: map<string, D>, q: Query<D>, answer: seq<(string, D)>, id: string)
    requires Answers(table, q, answer)
    requires q.offset == 0 && q.order == Descending
    requires id in table && q.keep(table[id]) && id !in Ids(answer)
    ensures forall i :: 0 <= i < |answer| ==> q.key(table[id]) <= q.key(answer[i].1)
  {
    var all: seq<(string, D)> :| Lists(table, q.keep, all) && Ordered(all, q.key, q.order) && answer == Window(all, q.offset, q.limit);
    assert id in Ids(all);
    var j :| 0 <= j < |all| && all[j].0 == id;
    assert |answer| <= |all|;
    forall i | 0 <= i < |answer| ensures answer[i] == all[i] && answer[i].0 != id {
      assert answer[i].0 in Ids(answer);
    }
    assert j >= |answer|;
    forall i | 0 <= i < |answer| ensures q.key(table[id]) <= q.key(answer[i].1) {
      assert i < j;
      assert InOrder(q.key(all[i].1), q.key(all[j].1), q.order);
    }
  }

  /** A query from the start leaves a selected document out only when the
      answer is full: there is a limit and the answer has reached it. */
  lemma AnswerWithinLimit<D(!new)>(table: map<string, D>, q: Query<D>, answer: seq<(string, D)>, id: string)
    requires Answers(table, q, answer)
    requires q.offset == 0
    requires id in table && q.keep(table[id]) && id !in Ids(answer)
    ensures q.limit.Some? && |answer| == q.limit.value
  {
    var all: seq<(string, D)> :| Lists(table, q.keep, all) && Ordered(all, q.key, q.order) && answer == Window(all, q.offset, q.limit);
    assert id in Ids(all);
    var j :| 0 <= j < |all| && all[j].0 == id;
    forall i | 0 <= i < |answer| ensures answer[i] == all[i] && answer[i].0 != id {
      assert answer[i].0 in Ids(answer);
    }
    assert j >= |answer|;
  }

  /** Without offset or limit, every selected document has a position in the
      answer. */
  lemma AnswerPosition<D(!new)>(table: map<string, D>, q: Query<D>, answer: seq<(string, D)>, id: string) returns (j: int)
    requires Answers(table, q, answer)
    requires q.offset == 0 && q.limit.None?
    requires id in table && q.keep(table[id])
    ensures 0 <= j < |answer| && answer[j] == (id, table[id])
  {
    var all: seq<(string, D)> :| Lists(table, q.keep, all) && Ordered(all, q.key, q.order) && answer == Window(all, q.offset, q.limit);
    assert answer == all;
    assert id in Ids(all);
    j :| 0 <= j < |all| && all[j].0 == id;
  }

  /** Without offset or limit, an id is in the answer exactly when its
      document is stored and passes the filter. */
  lemma AnswerExact<D(!new)>(table: map<string, D>, q: Query<D>, answer: seq<(string, D)>)
    requires Answers(table, q, answer)
    requires q.offset == 0 && q.limit.None?
    ensures forall id :: id in Ids(answer) <==> id in table && q.keep(table[id])
  {
    AnswerComplete(table, q, answer);
  }
}
