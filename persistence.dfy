/** Conversation persistence: the chats collection is a sequence of dated
    documents in insertion order; `SaveChat` appends the turns whose `saved`
    flag is missing or false as one batch and then flags every turn as saved;
    `RestoreChat` reads one date back. */
module Persistence {
  import opened Conversation

  type Date = string

  /** One stored chat document. */
  datatype Doc = Doc(date: Date, role: string, content: string)

  /** A turn still to be stored: its `saved` key is missing or false. */
  predicate IsUnsaved(e: Entry)
  {
    e.saved.None? || !e.saved.value
  }

  /** The turns of `ctx` still to be stored, in context order. */
  function Unsaved(ctx: seq<Entry>): (r: seq<Entry>)
    ensures |r| <= |ctx|
    ensures forall e :: e in r <==> e in ctx && IsUnsaved(e)
  {
    if ctx == [] then []
    else (if IsUnsaved(ctx[0]) then [ctx[0]] else []) + Unsaved(ctx[1..])
  }

  /** One document per turn, tagged with `d`, keeping role and content. */
  function ToDocs(entries: seq<Entry>, d: Date): (docs: seq<Doc>)
    ensures |docs| == |entries|
    ensures forall i :: 0 <= i < |entries| ==>
      docs[i] == Doc(d, entries[i].role, entries[i].content)
  {
    if entries == [] then []
    else [Doc(d, entries[0].role, entries[0].content)] + ToDocs(entries[1..], d)
  }

  /** The batch `SaveChat` writes for `ctx` on date `d`. */
  function Batch(ctx: seq<Entry>, d: Date): seq<Doc>
  {
    ToDocs(Unsaved(ctx), d)
  }

  /** The given date, or today's when none is given. */
  function DateOrToday(date: Option<Date>, today: Date): Date
  {
    if date.Some? then date.value else today
  }

  /** The context after every flag is set: same turns, all saved. */
  function MarkAllSaved(ctx: seq<Entry>): (r: seq<Entry>)
    ensures |r| == |ctx|
    ensures forall i :: 0 <= i < |ctx| ==>
      r[i] == Entry(ctx[i].role, ctx[i].content, Some(true))
  {
    if ctx == [] then []
    else [Entry(ctx[0].role, ctx[0].content, Some(true))] + MarkAllSaved(ctx[1..])
  }

  /** The documents of date `d`, in store order. */
  function Find(docs: seq<Doc>, d: Date): (r: seq<Doc>)
    ensures |r| <= |docs|
    ensures forall doc :: doc in r <==> doc in docs && doc.date == d
  {
    if docs == [] then []
    else (if docs[0].date == d then [docs[0]] else []) + Find(docs[1..], d)
  }

  /** Stored documents turned back into context turns, flagged as saved. */
  function AsSavedEntries(docs: seq<Doc>): (r: seq<Entry>)
    ensures |r| == |docs|
    ensures forall i :: 0 <= i < |docs| ==>
      r[i] == Entry(docs[i].role, docs[i].content, Some(true))
  {
    if docs == [] then []
    else [Entry(docs[0].role, docs[0].content, Some(true))] + AsSavedEntries(docs[1..])
  }

  /** What `restore_chat` returns for date `d` over the stored documents. */
  function Restore(docs: seq<Doc>, d: Date): (r: seq<Entry>)
    ensures forall e :: e in r ==> e.saved == Some(true) && !IsUnsaved(e)
  {
    AsSavedEntries(Find(docs, d))
  }

  lemma {:induction false} UnsavedAppend(a: seq<Entry>, b: seq<Entry>)
    ensures Unsaved(a + b) == Unsaved(a) + Unsaved(b)
  {
    if a == [] {
      assert a + b == b;
    } else {
      assert (a + b)[1..] == a[1..] + b;
      UnsavedAppend(a[1..], b);
    }
  }

  lemma {:induction false} FindAppend(a: seq<Doc>, b: seq<Doc>, d: Date)
    ensures Find(a + b, d) == Find(a, d) + Find(b, d)
  {
    if a == [] {
      assert a + b == b;
    } else {
      assert (a + b)[1..] == a[1..] + b;
      FindAppend(a[1..], b, d);
    }
  }

  /** A batch written for date `d` is found in full, in order, under `d`. */
  lemma {:induction false} FindOwnBatch(entries: seq<Entry>, d: Date)
    ensures Find(ToDocs(entries, d), d) == ToDocs(entries, d)
  {
    if entries != [] {
      FindOwnBatch(entries[1..], d);
    }
  }

  /** Once every flag is set, nothing is left to store. */
  lemma {:induction false} MarkedHasNoUnsaved(ctx: seq<Entry>)
    ensures Unsaved(MarkAllSaved(ctx)) == []
  {
    if ctx != [] {
      MarkedHasNoUnsaved(ctx[1..]);
    }
  }

  /** When nothing is left to store, every flag is already set. */
  lemma {:induction false} NothingUnsavedIsMarked(ctx: seq<Entry>)
    requires Unsaved(ctx) == []
    ensures MarkAllSaved(ctx) == ctx
  {
    if ctx != [] {
      assert ctx[0] !in Unsaved(ctx);
      NothingUnsavedIsMarked(ctx[1..]);
    }
  }

  /** A context whose turns are all flagged has nothing to store. */
  lemma {:induction false} NoneUnsavedLeavesNothing(ctx: seq<Entry>)
    requires forall e :: e in ctx ==> !IsUnsaved(e)
    ensures Unsaved(ctx) == []
  {
    if ctx != [] {
      assert ctx[0] in ctx;
      NoneUnsavedLeavesNothing(ctx[1..]);
    }
  }

  /** A second save with no new turns in between writes nothing: each turn is
      stored at most once. */
  lemma SaveTwiceWritesOnce(ctx: seq<Entry>, d: Date)
    ensures Batch(MarkAllSaved(ctx), d) == []
  {
    MarkedHasNoUnsaved(ctx);
  }

  /** Turns appended after a save are the only ones the next save writes. */
  lemma SaveAfterAppendWritesOnlyNew(ctx: seq<Entry>, added: seq<Entry>, d: Date)
    ensures Batch(MarkAllSaved(ctx) + added, d) == Batch(added, d)
  {
    UnsavedAppend(MarkAllSaved(ctx), added);
    MarkedHasNoUnsaved(ctx);
  }

  lemma {:induction false} AsSavedEntriesAppend(a: seq<Doc>, b: seq<Doc>)
    ensures AsSavedEntries(a + b) == AsSavedEntries(a) + AsSavedEntries(b)
  {
    if a == [] {
      assert a + b == b;
    } else {
      assert (a + b)[1..] == a[1..] + b;
      AsSavedEntriesAppend(a[1..], b);
    }
  }

  /** Restoring a date after a save appends the saved batch, as saved turns,
      to what the date already held. */
  lemma SaveThenRestoreAppends(docs: seq<Doc>, ctx: seq<Entry>, d: Date)
    ensures Restore(docs + Batch(ctx, d), d)
         == Restore(docs, d) + MarkAllSaved(Unsaved(ctx))
  {
    var batch := Batch(ctx, d);
    FindAppend(docs, batch, d);
    FindOwnBatch(Unsaved(ctx), d);
    AsSavedEntriesAppend(Find(docs, d), batch);
    assert AsSavedEntries(batch) == MarkAllSaved(Unsaved(ctx));
  }

  /** The save/restore round trip: on a date with nothing stored yet, restoring
      after a save gives back exactly the turns that were unsaved, in order,
      now flagged as saved. */
  lemma SaveThenRestoreRoundTrip(docs: seq<Doc>, ctx: seq<Entry>, d: Date)
    requires Find(docs, d) == []
    ensures Restore(docs + Batch(ctx, d), d) == MarkAllSaved(Unsaved(ctx))
  {
    SaveThenRestoreAppends(docs, ctx, d);
    assert Restore(docs, d) == [];
  }

  /** The chats collection: documents in insertion order. */
  class ChatCollection {
    var docs: seq<Doc>

    constructor ()
      ensures docs == []
    {
      docs := [];
    }

    /** `insert_many`: all of `batch` is appended, or, when the database does
        not accept the write, nothing is and the call raises (ok == false). */
    method InsertMany(batch: seq<Doc>, accepted: bool) returns (ok: bool)
      modifies this
      ensures ok == accepted
      ensures docs == if ok then old(docs) + batch else old(docs)
    {
      ok := accepted;
      if ok {
        docs := docs + batch;
      }
    }
  }

  class MemoryManager {
    const chats: ChatCollection

    constructor (chats: ChatCollection)
      ensures this.chats == chats
    {
      this.chats := chats;
    }

    /** `save_chat`: the caller's context comes back as `updated`, with the flags
        set once the batch has been written. A failed write (ok == false)
        leaves both the collection and every flag as they were. */
    method SaveChat(context: seq<Entry>, date: Option<Date>, today: Date, accepted: bool)
      returns (updated: seq<Entry>, ok: bool)
      modifies chats
      ensures ok == (Unsaved(context) == [] || accepted)
      ensures ok ==> chats.docs == old(chats.docs) + Batch(context, DateOrToday(date, today))
      ensures ok ==> updated == MarkAllSaved(context)
      ensures !ok ==> chats.docs == old(chats.docs) && updated == context
    {
      var saveDate := DateOrToday(date, today);
      var unsaved := Unsaved(context);
      if unsaved == [] {
        NothingUnsavedIsMarked(context);
        return context, true;
      }
      var docs := ToDocs(unsaved, saveDate);
      ok := chats.InsertMany(docs, accepted);
      if !ok {
        return context, false;
      }
      updated := MarkSaved(context);
    }

    /** `restore_chat`: the stored turns of one date, flagged as saved. */
    function RestoreChat(date: Option<Date>, today: Date): (r: seq<Entry>)
      reads chats
      ensures |r| == |Find(chats.docs, DateOrToday(date, today))|
      ensures forall e :: e in r ==> e.saved == Some(true)
    {
      Restore(chats.docs, DateOrToday(date, today))
    }
  }

  /** The flag loop of `save_chat`: every turn whose flag is missing or false
      gets `saved` set; the others are left alone. */
  method MarkSaved(context: seq<Entry>) returns (updated: seq<Entry>)
    ensures updated == MarkAllSaved(context)
  {
    updated := context;
    var i := 0;
    while i < |updated|
      invariant |updated| == |context|
      invariant 0 <= i <= |context|
      invariant forall j :: 0 <= j < i ==>
        updated[j] == Entry(context[j].role, context[j].content, Some(true))
      invariant forall j :: i <= j < |context| ==> updated[j] == context[j]
    {
      if IsUnsaved(updated[i]) {
        updated := updated[i := updated[i].(saved := Some(true))];
      }
      i := i + 1;
    }
  }
}
