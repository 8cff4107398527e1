/** The Firestore-backed task service (src/services/todoService.ts) over a
    model of the `todos` collection. */
module TodoService {
  import opened Wrappers
  import opened Text
  import opened TodoServiceContext

  const FetchIdRequired := "User ID is required to fetch todos."
  const FetchFailed := "Failed to fetch todos."
  const AddArgsRequired := "User ID and text are required to add a todo."
  const AddEmpty := "Cannot add an empty todo."
  const AddFailed := "Failed to add todo."
  const UpdateIdRequired := "Todo ID is required to update."
  const UpdateFailed := "Failed to update todo."
  const DeleteIdRequired := "Todo ID is required to delete."
  const DeleteFailed := "Failed to delete todo."

  // ---------------------------------------------------------------------------
  // Document ids

  function Digit(d: nat): (c: char)
    requires d < 10
    ensures '0' <= c <= '9' && c as int - '0' as int == d
  {
    "0123456789"[d]
  }

  /** The decimal numeral of `n`. */
  function Decimal(n: nat): (r: string)
    ensures 1 <= |r|
    ensures n < 10 <==> |r| == 1
  {
    if n < 10 then [Digit(n)] else Decimal(n / 10) + [Digit(n % 10)]
  }

  /** Different numbers have different numerals. */
  lemma {:induction false} DecimalInjective(a: nat, b: nat)
    requires Decimal(a) == Decimal(b)
    ensures a == b
  {
    if 10 <= a {
      var da, db := Decimal(a), Decimal(b);
      assert da[..|da| - 1] == Decimal(a / 10);
      assert db[..|db| - 1] == Decimal(b / 10);
      DecimalInjective(a / 10, b / 10);
      assert Digit(a % 10) == da[|da| - 1] == db[|db| - 1] == Digit(b % 10);
    }
  }

  /** The id the store gives the document it creates at clock tick `tick`.
      (Firestore draws random ids; the model names documents after their
      creation tick, which is just as unique.) */
  function DocId(tick: Timestamp): string {
    "todo-" + Decimal(tick)
  }

  lemma DocIdInjective(a: Timestamp, b: Timestamp)
    requires DocId(a) == DocId(b)
    ensures a == b
  {
    assert Decimal(a) == DocId(a)[5..];
    assert Decimal(b) == DocId(b)[5..];
    DecimalInjective(a, b);
  }

  // ---------------------------------------------------------------------------
  // The query `where("userId", "==", u), orderBy("createdAt", "desc")`

  /** Strictly decreasing creation time along the sequence: newest first. */
  ghost predicate NewestFirst(r: seq<Todo>) {
    forall i, j :: 0 <= i < j < |r| ==> r[i].createdAt > r[j].createdAt
  }

  /** `r` is what the per-user query returns on the documents `docs`: exactly
      the stored documents owned by `u`, each joined to its id, newest first. */
  ghost predicate IsUserQueryResult(docs: map<string, StoredDoc>, u: string, r: seq<Todo>) {
    && NewestFirst(r)
    && (forall t :: t in r ==> t.id in docs && ToStored(t) == docs[t.id] && t.userId == u)
    && (forall k :: k in docs && docs[k].userId == u ==> WithId(k, docs[k]) in r)
  }

  /** Puts `t` into a newest-first sequence at the place its creation time calls for. */
  function InsertNewestFirst(s: seq<Todo>, t: Todo): (r: seq<Todo>)
    ensures |r| == |s| + 1
    ensures forall x :: x in r <==> x in s || x == t
  {
    if s == [] || t.createdAt > s[0].createdAt then [t] + s
    else [s[0]] + InsertNewestFirst(s[1..], t)
  }

  /** Inserting a todo whose creation time is not already taken keeps a
      sequence newest first. */
  lemma {:induction false} InsertKeepsNewestFirst(s: seq<Todo>, t: Todo)
    requires NewestFirst(s)
    requires forall x :: x in s ==> x.createdAt != t.createdAt
    ensures NewestFirst(InsertNewestFirst(s, t))
  {
    if s == [] || t.createdAt > s[0].createdAt {
      PrependNewest(s, t);
    } else {
      var rest := InsertNewestFirst(s[1..], t);
      InsertKeepsNewestFirst(s[1..], t);
      forall x | x in rest ensures x.createdAt < s[0].createdAt {
        if x != t {
          var i :| 1 <= i < |s| && s[i] == x;
        }
      }
      PrependNewest(rest, s[0]);
    }
  }

  /** Two newest-first sequences holding the same todos are the same sequence. */
  lemma {:induction false} NewestFirstDetermined(a: seq<Todo>, b: seq<Todo>)
    requires NewestFirst(a) && NewestFirst(b)
    requires forall x :: x in a <==> x in b
    ensures a == b
  {
    if b != [] {
      assert b[0] in a;
    }
    if a != [] {
      assert a[0] in b;
      assert b != [] && b[0] in a;
      assert b[0] == a[0];
      forall x ensures x in a[1..] <==> x in b[1..] {
        if x in a[1..] {
          var i :| 1 <= i < |a| && a[i] == x;
          assert x in b && x != b[0];
        }
        if x in b[1..] {
          var j :| 1 <= j < |b| && b[j] == x;
          assert x in a && x != a[0];
        }
      }
      NewestFirstDetermined(a[1..], b[1..]);
      assert a == [a[0]] + a[1..] && b == [b[0]] + b[1..];
    }
  }

  /** The query has one answer: any two results on the same documents are equal. */
  lemma UserQueryResultUnique(docs: map<string, StoredDoc>, u: string, r1: seq<Todo>, r2: seq<Todo>)
    requires IsUserQueryResult(docs, u, r1) && IsUserQueryResult(docs, u, r2)
    ensures r1 == r2
  {
    forall x ensures x in r1 <==> x in r2 {
      if x in r1 { WithIdToStored(x); }
      if x in r2 { WithIdToStored(x); }
    }
    NewestFirstDetermined(r1, r2);
  }

  /** A document named after a tick later than every creation tick in the
      store is not in the store yet. */
  lemma NextDocIdFresh(docs: map<string, StoredDoc>, clock: Timestamp)
    requires forall k :: k in docs ==> k == DocId(docs[k].createdAt) && docs[k].createdAt <= clock
    ensures DocId(clock + 1) !in docs
  {
    if DocId(clock + 1) in docs {
      DocIdInjective(clock + 1, docs[DocId(clock + 1)].createdAt);
    }
  }

  // ---------------------------------------------------------------------------
  // The collection

  /** The `todos` collection: documents by id, and the clock behind `serverTimestamp()`. */
  class TodoCollection {
    var docs: map<string, StoredDoc>
    var clock: Timestamp

    /** Every document is named after its creation tick, and no timestamp lies
        in the future of the clock or before the document's creation. */
    ghost predicate Valid()
      reads this
    {
      forall k :: k in docs ==>
        k == DocId(docs[k].createdAt) && docs[k].createdAt <= docs[k].updatedAt <= clock
    }

    constructor ()
      ensures Valid() && docs == map[] && clock == 0
    {
      docs := map[];
      clock := 0;
    }

    /** The store's side of `getDocs(query(...))`: the documents owned by
        `userId`, newest first. */
    method QueryByUser(userId: string) returns (r: seq<Todo>)
      requires Valid()
      ensures IsUserQueryResult(docs, userId, r)
    {
      var rest := docs.Keys;
      r := [];
      while rest != {}
        invariant rest <= docs.Keys
        invariant NewestFirst(r)
        invariant forall t :: t in r ==>
          t.id in docs && t.id !in rest && ToStored(t) == docs[t.id] && t.userId == userId
        invariant forall k :: k in docs && k !in rest && docs[k].userId == userId ==> WithId(k, docs[k]) in r
        decreases rest
      {
        var k :| k in rest;
        if docs[k].userId == userId {
          InsertKeepsNewestFirst(r, WithId(k, docs[k]));
          r := InsertNewestFirst(r, WithId(k, docs[k]));
        }
        rest := rest - {k};
      }
    }
  }

  // ---------------------------------------------------------------------------
  // The service operations

  /** `getTodosForUser(userId)`. */
  method GetTodosForUser(col: TodoCollection, userId: string, storeFails: bool) returns (r: Result<seq<Todo>>)
    requires col.Valid()
    ensures userId == "" ==> r == Err(FetchIdRequired)
    ensures userId != "" && storeFails ==> r == Err(FetchFailed)
    ensures userId != "" && !storeFails ==> r.Ok? && IsUserQueryResult(col.docs, userId, r.value)
  {
    if userId == "" {
      return Err(FetchIdRequired);
    }
    if storeFails {
      return Err(FetchFailed);
    }
    var todos := col.QueryByUser(userId);
    return Ok(todos);
  }

  /** `addTodo(userId, text)`. */
  method AddTodo(col: TodoCollection, userId: string, text: string, storeFails: bool) returns (r: Result<string>)
    requires col.Valid()
    modifies col
    ensures col.Valid()
    ensures userId == "" || text == "" ==> r == Err(AddArgsRequired) && unchanged(col)
    ensures userId != "" && text != "" && Trim(text) == "" ==> r == Err(AddEmpty) && unchanged(col)
    ensures userId != "" && text != "" && Trim(text) != "" && storeFails ==> r == Err(AddFailed) && unchanged(col)
    ensures userId != "" && text != "" && Trim(text) != "" && !storeFails ==>
      && col.clock == old(col.clock) + 1
      && r.Ok? && r.value !in old(col.docs)
      && col.docs == old(col.docs)[r.value := StoredDoc(userId, Trim(text), false, col.clock, col.clock)]
  {
    if userId == "" || text == "" {
      return Err(AddArgsRequired);
    }
    var trimmedText := Trim(text);
    if trimmedText == "" {
      return Err(AddEmpty);
    }
    if storeFails {
      return Err(AddFailed);
    }
    var now := col.clock + 1;
    var id := DocId(now);
    NextDocIdFresh(col.docs, col.clock);
    col.docs := col.docs[id := StoredDoc(userId, trimmedText, false, now, now)];
    col.clock := now;
    return Ok(id);
  }

  /** `updateTodo(todoId, updates)`: the patch merged into the document, its
      `updatedAt` replaced by the server time. Firestore refuses to update a
      document that does not exist. */
  method UpdateTodo(col: TodoCollection, todoId: string, updates: TodoPatch, storeFails: bool) returns (r: Result<()>)
    requires col.Valid()
    modifies col
    ensures col.Valid()
    ensures todoId == "" ==> r == Err(UpdateIdRequired) && unchanged(col)
    ensures todoId != "" && (storeFails || todoId !in old(col.docs)) ==> r == Err(UpdateFailed) && unchanged(col)
    ensures todoId != "" && !storeFails && todoId in old(col.docs) ==>
      && r == Ok(())
      && col.clock == old(col.clock) + 1
      && col.docs == old(col.docs)[todoId := ApplyPatch(old(col.docs)[todoId], updates.(updatedAt := Some(col.clock)))]
  {
    if todoId == "" {
      return Err(UpdateIdRequired);
    }
    if storeFails || todoId !in col.docs {
      return Err(UpdateFailed);
    }
    var now := col.clock + 1;
    col.docs := col.docs[todoId := ApplyPatch(col.docs[todoId], updates.(updatedAt := Some(now)))];
    col.clock := now;
    return Ok(());
  }

  /** `deleteTodo(todoId)`. Deleting an id that is not stored succeeds, as in Firestore. */
  method DeleteTodo(col: TodoCollection, todoId: string, storeFails: bool) returns (r: Result<()>)
    requires col.Valid()
    modifies col
    ensures col.Valid()
    ensures todoId == "" ==> r == Err(DeleteIdRequired) && unchanged(col)
    ensures todoId != "" && storeFails ==> r == Err(DeleteFailed) && unchanged(col)
    ensures todoId != "" && !storeFails ==>
      r == Ok(()) && col.docs == old(col.docs) - {todoId} && col.clock == old(col.clock)
  {
    if todoId == "" {
      return Err(DeleteIdRequired);
    }
    if storeFails {
      return Err(DeleteFailed);
    }
    col.docs := col.docs - {todoId};
    return Ok(());
  }

  // ---------------------------------------------------------------------------
  // Properties of the operations

  /** A document created after everything in the store heads its owner's
      query, followed by what the query gave before. */
  lemma AddedTodoListedFirst(docs: map<string, StoredDoc>, clock: Timestamp, u: string,
                             id: string, d: StoredDoc, before: seq<Todo>)
    requires forall k :: k in docs ==> docs[k].createdAt <= clock
    requires id !in docs && clock < d.createdAt
    requires IsUserQueryResult(docs, u, before)
    ensures IsUserQueryResult(docs[id := d], u, if d.userId == u then [WithId(id, d)] + before else before)
  {
    var after := docs[id := d];
    var r := if d.userId == u then [WithId(id, d)] + before else before;
    forall t | t in before ensures t.createdAt < d.createdAt && t.id != id {
    }
    if d.userId == u {
      PrependNewest(before, WithId(id, d));
    }
    forall t | t in r ensures t.id in after && ToStored(t) == after[t.id] && t.userId == u {
      if t in before { assert t.id != id; } else { assert t == WithId(id, d); }
    }
    forall k | k in after && after[k].userId == u ensures WithId(k, after[k]) in r {
      if k != id { assert WithId(k, docs[k]) in before; }
    }
  }

  /** A todo newer than everything in a newest-first sequence may head it. */
  lemma PrependNewest(s: seq<Todo>, t: Todo)
    requires NewestFirst(s)
    requires forall x :: x in s ==> x.createdAt < t.createdAt
    ensures NewestFirst([t] + s)
  {
    var r := [t] + s;
    forall i, j | 0 <= i < j < |r| ensures r[i].createdAt > r[j].createdAt {
      assert r[j] == s[j - 1];
      if 0 < i { assert r[i] == s[i - 1]; }
    }
  }

  /** Adding a task and then fetching its owner's tasks lists the new task
      first: the trimmed text, not completed, both timestamps the time of the write. */
  method AddedTodoHeadsOwnersList(col: TodoCollection, userId: string, text: string)
    returns (before: seq<Todo>, id: string, listed: seq<Todo>)
    requires col.Valid() && userId != "" && Trim(text) != ""
    modifies col
    ensures col.Valid()
    ensures IsUserQueryResult(old(col.docs), userId, before)
    ensures IsUserQueryResult(col.docs, userId, listed)
    ensures listed == [Todo(id, userId, Trim(text), false, col.clock, col.clock)] + before
  {
    ghost var docs0, clock0 := col.docs, col.clock;
    before := col.QueryByUser(userId);
    var added := AddTodo(col, userId, text, false);
    id := added.value;
    var fetched := GetTodosForUser(col, userId, false);
    listed := fetched.value;
    var d := StoredDoc(userId, Trim(text), false, col.clock, col.clock);
    AddedTodoListedFirst(docs0, clock0, userId, id, d, before);
    UserQueryResultUnique(col.docs, userId, listed, [WithId(id, d)] + before);
  }

  /** The stored text is non-empty and has no white space at either end. */
  predicate IsTrimmedText(s: string) {
    s != "" && Trim(s) == s
  }

  ghost predicate AllTextsTrimmed(docs: map<string, StoredDoc>) {
    forall k :: k in docs ==> IsTrimmedText(docs[k].text)
  }

  /** What `addTodo` stores keeps every stored text trimmed and non-blank. */
  lemma AddKeepsTextsTrimmed(docs: map<string, StoredDoc>, id: string, userId: string, text: string, now: Timestamp)
    requires AllTextsTrimmed(docs) && Trim(text) != ""
    ensures AllTextsTrimmed(docs[id := StoredDoc(userId, Trim(text), false, now, now)])
  {
    TrimIdempotent(text);
  }

  /** `updateTodo` does not validate text: a patch can store blank text. */
  lemma UpdateCanStoreBlankText()
    ensures var docs := map["todo-1" := StoredDoc("u", "a", false, 1, 1)];
            && AllTextsTrimmed(docs)
            && !AllTextsTrimmed(docs["todo-1" := ApplyPatch(docs["todo-1"], TodoPatch(Some(" "), None, Some(2)))])
  {
    var docs := map["todo-1" := StoredDoc("u", "a", false, 1, 1)];
    assert Trim("a") == "a";
    var after := docs["todo-1" := ApplyPatch(docs["todo-1"], TodoPatch(Some(" "), None, Some(2)))];
    assert after["todo-1"].text == " " && AllWhiteSpace(" ");
    TrimEmptyIffBlank(" ");
    assert !IsTrimmedText(after["todo-1"].text);
  }
}
