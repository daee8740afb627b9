/**
 * The debounce in `activate` (src/extension.ts:182-207): every event that
 * asks for a lint cancels the pending timer and arms a new one for its
 * document; when the timer fires, that document is linted. The state is the
 * document of the pending timer, if any.
 */
module Debounce {
  import opened Wrappers
  import opened Documents

  /** What reaches the extension: the active editor changing (to no editor
      or to one showing a document), a document changing, or the 300 ms timer
      firing. */
  datatype Event =
    | ActiveEditorChanged(editor: Option<Document>)
    | TextDocumentChanged(document: Document)
    | TimerFired

  /** The document an event asks `lintOnChange` to lint: the new editor's
      document, or a changed document that has no unsaved changes. */
  function Trigger(ev: Event): Option<Document> {
    match ev
    case ActiveEditorChanged(editor) => editor
    case TextDocumentChanged(doc) => if doc.isDirty then None else Some(doc)
    case TimerFired => None
  }

  /** The pending timer after one event: a trigger replaces it, the timer
      firing consumes it, anything else leaves it. */
  function Step(pending: Option<Document>, ev: Event): (r: Option<Document>)
    ensures ev.TimerFired? ==> r.None?
    ensures Ignored(ev) ==> r == pending
    ensures forall doc :: Requests(ev, doc) ==> r == Some(doc)
  {
    if ev.TimerFired? then None
    else if Trigger(ev).Some? then Trigger(ev)
    else pending
  }

  /** The pending timer after a sequence of events. */
  function Pending(events: seq<Event>, init: Option<Document>): Option<Document>
    decreases |events|
  {
    if events == [] then init else Step(Pending(events[..|events| - 1], init), events[|events| - 1])
  }

  /** The documents linted, in order: one for each time the timer fires
      with a document pending. */
  function Linted(events: seq<Event>, init: Option<Document>): seq<Document>
    decreases |events|
  {
    if events == [] then []
    else
      var before := events[..|events| - 1];
      var p := Pending(before, init);
      Linted(before, init) + (if events[|events| - 1].TimerFired? && p.Some? then [p.value] else [])
  }

  /** The events the listeners drop: the active editor changing to no
      editor, and a change to a document with unsaved changes. */
  predicate Ignored(ev: Event) {
    (ev.ActiveEditorChanged? && ev.editor.None?) || (ev.TextDocumentChanged? && ev.document.isDirty)
  }

  /** The events that ask for `doc` to be linted: an editor showing it
      becoming active, or a change to it while it has no unsaved changes. */
  predicate Requests(ev: Event, doc: Document) {
    ev == ActiveEditorChanged(Some(doc)) || (ev == TextDocumentChanged(doc) && !doc.isDirty)
  }

  /** Every event is the timer, an ignored event, or a request for exactly
      one document, so `Step` is fixed by its three cases. */
  lemma EventKinds(ev: Event)
    ensures ev.TimerFired? || Ignored(ev) || exists doc :: Requests(ev, doc)
    ensures forall doc :: Requests(ev, doc) ==> !Ignored(ev) && !ev.TimerFired?
    ensures forall d1, d2 :: Requests(ev, d1) && Requests(ev, d2) ==> d1 == d2
  {
    match ev
    case ActiveEditorChanged(editor) =>
      if editor.Some? {
        assert Requests(ev, editor.value);
      }
    case TextDocumentChanged(doc) =>
      if !doc.isDirty {
        assert Requests(ev, doc);
      }
    case TimerFired =>
  }

  /** Events with no editor and changes to dirty documents never touch the
      pending timer. */
  lemma {:induction false} IgnoredEventsKeep(events: seq<Event>, init: Option<Document>)
    requires forall j :: 0 <= j < |events| ==> Ignored(events[j])
    ensures Pending(events, init) == init && Linted(events, init) == []
    decreases |events|
  {
    if events != [] {
      IgnoredEventsKeep(events[..|events| - 1], init);
    }
  }

  /** The last trigger wins: after a trigger followed only by ignored
      events, the pending timer is the one for the trigger's document. */
  lemma {:induction false} LastTriggerWins(events: seq<Event>, init: Option<Document>, k: nat, doc: Document)
    requires k < |events| && Requests(events[k], doc)
    requires forall j :: k < j < |events| ==> Ignored(events[j])
    ensures Pending(events, init) == Some(doc)
    decreases |events|
  {
    if k < |events| - 1 {
      var before := events[..|events| - 1];
      assert before[k] == events[k];
      LastTriggerWins(before, init, k, doc);
    }
  }

  /** Without the timer firing nothing is linted, whatever was pending. */
  lemma {:induction false} NothingLintedBeforeFiring(events: seq<Event>, init: Option<Document>)
    requires forall j :: 0 <= j < |events| ==> !events[j].TimerFired?
    ensures Linted(events, init) == []
    decreases |events|
  {
    if events != [] {
      NothingLintedBeforeFiring(events[..|events| - 1], init);
    }
  }

  /** A burst of events with no timer firing in between, in which the
      `k`-th is the last trigger, lints once when the timer fires: the
      trigger's document, and nothing is pending afterwards. */
  lemma BurstLintsOnce(events: seq<Event>, init: Option<Document>, k: nat, doc: Document)
    requires k < |events| && Requests(events[k], doc)
    requires forall j :: 0 <= j < |events| ==> !events[j].TimerFired?
    requires forall j :: k < j < |events| ==> Ignored(events[j])
    ensures Linted(events + [TimerFired], init) == [doc]
    ensures Pending(events + [TimerFired], init).None?
  {
    var all := events + [TimerFired];
    assert all[..|all| - 1] == events;
    NothingLintedBeforeFiring(events, init);
    LastTriggerWins(events, init, k, doc);
  }
}
