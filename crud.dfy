/**
 * The record-management pattern the seven screens share: a cached list, a
 * search query, a draft edited in a modal, an editing target, a
 * confirmation-gated delete and a single-slot alert. One generic
 * `Screen` class is driven by a `Config` value that records what differs
 * between screens: the record and draft shapes, the success test, whether a
 * delete refetches or removes locally, whether a refetch is awaited,
 * whether the screen tracks a loading flag, and whether the list lives
 * only in the page.
 */
module Crud {
  import opened Js
  import opened Http
  import opened Records

  /** A request a handler sends; the fetch of the list is implicit in `Listing`. */
  datatype Request<P> = Post(body: P) | Put(id: int, body: P) | Remove(target: Option<int>)

  /** The reply to the list fetch. */
  type Listing<R> = Response<Envelope<seq<R>>>

  /** The reply to a create, update or delete; its data is never read. */
  type Ack = Response<Envelope<()>>

  datatype AfterDelete = RefetchList | RemoveLocally
  datatype Refetch = Awaited | NotAwaited

  /** The fixed messages of a screen that talks to the API. */
  datatype Texts = Texts(
    fetchOk: Option<string>,           // success alert of a fetch, if the screen shows one
    fetchFailFallback: Option<string>, // `message || fallback` on a refused fetch, if the screen has one
    fetchThrown: string,
    saveThrown: string,
    saveThrownUsesServer: bool,        // `error.response?.data?.message || saveThrown`
    deleteThrown: string)

  /** Where the list comes from: the API, or only the page's own state. */
  datatype Backend<R, !D, P> =
    | Remote(payload: D -> P, test: SuccessTest, afterDelete: AfterDelete, refetch: Refetch,
             tracksLoading: bool, texts: Texts)
    | LocalOnly(build: (int, D) -> R)

  /** Everything that distinguishes one screen from another. */
  datatype Config<!R, !D, P, !Q> = Config(
    idOf: R -> int,
    editDraft: R -> D,       // the draft `handleOpenModal(record)` loads
    createDraft: D,          // the draft `handleOpenModal()` and the reset load
    closeResetsDraft: bool,  // whether `handleCloseModal` resets the draft
    dismissCloses: bool,     // whether dismissing the modal runs `handleCloseModal`
    matches: (R, Q) -> bool,
    noQuery: Q,
    backend: Backend<R, D, P>)

  /** One screen's state. */
  datatype Snapshot<R, D, Q> = Snapshot(
    list: seq<R>,
    query: Q,
    draft: D,
    editing: Option<R>,
    modalOpen: bool,
    deleteOpen: bool,
    pending: Option<int>,
    alert: Alert,
    loading: bool)

  /** The screen as first rendered, before its list arrives. */
  function Mount<R, D, P, Q>(c: Config<R, D, P, Q>): (s: Snapshot<R, D, Q>)
    ensures s.list == [] && s.query == c.noQuery && s.draft == c.createDraft && s.editing.None?
    ensures !s.modalOpen && !s.deleteOpen && s.pending.None? && s.alert == Hidden && !s.loading
  {
    Snapshot([], c.noQuery, c.createDraft, None, false, false, None, Hidden, false)
  }

  /** The records shown: those of the cached list that the query matches, in list order. */
  function Visible<R(==), D, P, Q>(c: Config<R, D, P, Q>, s: Snapshot<R, D, Q>): (rows: seq<R>)
    ensures |rows| <= |s.list|
    ensures forall i :: 0 <= i < |rows| ==> rows[i] in s.list && c.matches(rows[i], s.query)
  {
    Filter(s.list, r => c.matches(r, s.query))
  }

  lemma VisibleExactly<R, D, P, Q>(c: Config<R, D, P, Q>, s: Snapshot<R, D, Q>)
    ensures forall x :: x in Visible(c, s) <==> x in s.list && c.matches(x, s.query)
    ensures Subsequence(Visible(c, s), s.list)
  {
    var ys := Visible(c, s);
    forall x
      ensures x in ys <==> x in s.list && c.matches(x, s.query)
    {
      if x in ys {
        var i :| 0 <= i < |ys| && ys[i] == x;
      }
      if x in s.list && c.matches(x, s.query) {
        var i :| 0 <= i < |s.list| && s.list[i] == x;
      }
    }
    FilterIsSubsequence(s.list, r => c.matches(r, s.query));
  }

  /** Any test that agrees with the screen's matcher on the cached records filters to the same view. */
  lemma VisibleIsFilterBy<R, D, P, Q>(c: Config<R, D, P, Q>, s: Snapshot<R, D, Q>, keep: R -> bool)
    requires forall i :: 0 <= i < |s.list| ==> keep(s.list[i]) == c.matches(s.list[i], s.query)
    ensures Visible(c, s) == Filter(s.list, keep)
  {
    FilterAgrees(s.list, keep, r => c.matches(r, s.query));
  }

  /** A query every cached record matches shows the whole list. */
  lemma AllMatchShowsAll<R, D, P, Q>(c: Config<R, D, P, Q>, s: Snapshot<R, D, Q>)
    requires forall i :: 0 <= i < |s.list| ==> c.matches(s.list[i], s.query)
    ensures Visible(c, s) == s.list
  {
    FilterKeepsAll(s.list, r => c.matches(r, s.query));
  }

  /** On a screen whose matcher accepts every record under the empty query, that query shows the whole list. */
  lemma NoQueryShowsAll<R, D, P, Q>(c: Config<R, D, P, Q>, s: Snapshot<R, D, Q>)
    requires s.query == c.noQuery
    requires forall r :: c.matches(r, c.noQuery)
    ensures Visible(c, s) == s.list
  {
    AllMatchShowsAll(c, s);
  }

  // ------------------------------------------------------------ the modal

  function OpenForEdit<R, D, P, Q>(c: Config<R, D, P, Q>, s: Snapshot<R, D, Q>, r: R): (t: Snapshot<R, D, Q>)
    ensures t.modalOpen && t.editing == Some(r) && t.draft == c.editDraft(r)
    ensures t.(modalOpen := s.modalOpen, editing := s.editing, draft := s.draft) == s
  {
    s.(editing := Some(r), draft := c.editDraft(r), modalOpen := true)
  }

  function OpenForCreate<R, D, P, Q>(c: Config<R, D, P, Q>, s: Snapshot<R, D, Q>): (t: Snapshot<R, D, Q>)
    ensures t.modalOpen && t.editing.None? && t.draft == c.createDraft
    ensures t.(modalOpen := s.modalOpen, editing := s.editing, draft := s.draft) == s
  {
    s.(editing := None, draft := c.createDraft, modalOpen := true)
  }

  /** `handleCloseModal` */
  function Close<R, D, P, Q>(c: Config<R, D, P, Q>, s: Snapshot<R, D, Q>): (t: Snapshot<R, D, Q>)
    ensures !t.modalOpen && t.editing.None?
    ensures c.closeResetsDraft ==> t.draft == c.createDraft
    ensures !c.closeResetsDraft ==> t.draft == s.draft
    ensures t.(modalOpen := s.modalOpen, editing := s.editing, draft := s.draft) == s
  {
    s.(modalOpen := false, editing := None, draft := if c.closeResetsDraft then c.createDraft else s.draft)
  }

  /** The dialog's `onOpenChange`: the close handler, or (Positions) only the flag. */
  function Dismiss<R, D, P, Q>(c: Config<R, D, P, Q>, s: Snapshot<R, D, Q>): (t: Snapshot<R, D, Q>)
    ensures !t.modalOpen
    ensures c.dismissCloses ==> t == Close(c, s)
    ensures !c.dismissCloses ==> t == s.(modalOpen := false)
  {
    if c.dismissCloses then Close(c, s) else s.(modalOpen := false)
  }

  /** Closing is idempotent. */
  lemma CloseIdempotent<R, D, P, Q>(c: Config<R, D, P, Q>, s: Snapshot<R, D, Q>)
    ensures Close(c, Close(c, s)) == Close(c, s)
  {
  }

  /** Where closing resets the draft, opening and then closing leaves exactly what closing leaves. */
  lemma OpenThenCloseForgets<R, D, P, Q>(c: Config<R, D, P, Q>, s: Snapshot<R, D, Q>, r: R)
    requires c.closeResetsDraft
    ensures Close(c, OpenForEdit(c, s, r)) == Close(c, s)
    ensures Close(c, OpenForCreate(c, s)) == Close(c, s)
  {
  }

  /** Opening for create after any edit shows a fresh draft with no target. */
  lemma CreateAfterEditIsFresh<R, D, P, Q>(c: Config<R, D, P, Q>, s: Snapshot<R, D, Q>, r: R)
    ensures OpenForCreate(c, OpenForEdit(c, s, r)) == OpenForCreate(c, s)
  {
  }

  function SetQuery<R, D, Q>(s: Snapshot<R, D, Q>, q: Q): (t: Snapshot<R, D, Q>)
    ensures t.query == q && t.(query := s.query) == s
  {
    s.(query := q)
  }

  function SetDraft<R, D, Q>(s: Snapshot<R, D, Q>, d: D): (t: Snapshot<R, D, Q>)
    ensures t.draft == d && t.(draft := s.draft) == s
  {
    s.(draft := d)
  }

  // ---------------------------------------------------------- the delete gate

  /** `handleDeleteConfirmation(id)`: remember the id and open the dialog; nothing is sent. */
  function AskDelete<R, D, Q>(s: Snapshot<R, D, Q>, id: int): (t: Snapshot<R, D, Q>)
    ensures t.deleteOpen && t.pending == Some(id)
    ensures t.list == s.list && t.(deleteOpen := s.deleteOpen, pending := s.pending) == s
  {
    s.(pending := Some(id), deleteOpen := true)
  }

  /** Cancel (or the dialog's `onOpenChange`): only the flag drops; the pending id stays. */
  function CancelDelete<R, D, Q>(s: Snapshot<R, D, Q>): (t: Snapshot<R, D, Q>)
    ensures !t.deleteOpen && t.(deleteOpen := s.deleteOpen) == s
  {
    s.(deleteOpen := false)
  }

  /** Asking and cancelling changes no record and keeps the id for the next confirmation. */
  lemma AskThenCancel<R, D, Q>(s: Snapshot<R, D, Q>, id: int)
    ensures CancelDelete(AskDelete(s, id)) == s.(pending := Some(id), deleteOpen := false)
  {
  }

  // ------------------------------------------------------- replies from the API

  /** The reply passes the screen's success test. */
  predicate Accepted<R, D, P, Q, T>(c: Config<R, D, P, Q>, reply: Response<Envelope<T>>)
    requires c.backend.Remote?
  {
    reply.Got? && Passes(c.backend.test, reply.body.status)
  }

  /** A thrown request is never accepted; a strict screen accepts exactly `status: 'success'`. */
  lemma AcceptedMeans<R, D, P, Q, T>(c: Config<R, D, P, Q>, reply: Response<Envelope<T>>)
    requires c.backend.Remote?
    ensures reply.Threw? ==> !Accepted(c, reply)
    ensures c.backend.test == StatusIsSuccess ==> (Accepted(c, reply) <==> reply.Got? && reply.body.status == Text("success"))
    ensures c.backend.test == StatusIsTruthy ==> (Accepted(c, reply) <==> reply.Got? && IsTruthy(reply.body.status))
    ensures c.backend.test == StatusIsSuccess && Accepted(c, reply) ==> IsTruthy(reply.body.status)
  {
  }

  /** The request is in flight: a screen that tracks loading shows it. */
  function InFlight<R, D, P, Q>(c: Config<R, D, P, Q>, s: Snapshot<R, D, Q>): (t: Snapshot<R, D, Q>)
    ensures c.backend.Remote? && c.backend.tracksLoading ==> t == s.(loading := true)
    ensures !(c.backend.Remote? && c.backend.tracksLoading) ==> t == s
  {
    if c.backend.Remote? && c.backend.tracksLoading then s.(loading := true) else s
  }

  /** The `finally` of a screen that tracks loading. */
  function Settled<R, D, P, Q>(c: Config<R, D, P, Q>, s: Snapshot<R, D, Q>): (t: Snapshot<R, D, Q>)
    ensures c.backend.Remote? && c.backend.tracksLoading ==> t == s.(loading := false)
    ensures !(c.backend.Remote? && c.backend.tracksLoading) ==> t == s
  {
    if c.backend.Remote? && c.backend.tracksLoading then s.(loading := false) else s
  }

  /** The alert of a refused fetch: the server message, or with a fallback when the screen has one. */
  function RefusedText(t: Texts, message: Option<string>): (m: Option<string>)
    ensures t.fetchFailFallback.None? ==> m == message
    ensures t.fetchFailFallback.Some? ==> m == Some(OrElse(message, t.fetchFailFallback.value))
  {
    match t.fetchFailFallback
    case None => message
    case Some(f) => Some(OrElse(message, f))
  }

  /**
   * The list fetch. An accepted reply replaces the cache; a refused
   * or thrown one keeps it and shows an error. Nothing else changes.
   */
  function ApplyFetch<R, D, P, Q>(c: Config<R, D, P, Q>, s: Snapshot<R, D, Q>, reply: Listing<R>): (t: Snapshot<R, D, Q>)
    requires c.backend.Remote?
    ensures Accepted(c, reply) ==> t.list == reply.body.data
    ensures Accepted(c, reply) && c.backend.texts.fetchOk.None? ==> t.alert == s.alert
    ensures Accepted(c, reply) && c.backend.texts.fetchOk.Some? ==> t.alert == Shown(c.backend.texts.fetchOk, Success)
    ensures !Accepted(c, reply) ==> t.list == s.list && t.alert.Shown? && t.alert.kind == Failure
    ensures reply.Got? && !Accepted(c, reply) ==> t.alert.message == RefusedText(c.backend.texts, reply.body.message)
    ensures reply.Threw? ==> t.alert.message == Some(c.backend.texts.fetchThrown)
    ensures t.(list := s.list, alert := s.alert, loading := s.loading) == s
    ensures t.loading == Settled(c, s).loading
  {
    var texts := c.backend.texts;
    var next :=
      match reply
      case Got(env) =>
        if Passes(c.backend.test, env.status) then
          s.(list := env.data, alert := if texts.fetchOk.Some? then Shown(texts.fetchOk, Success) else s.alert)
        else s.(alert := Shown(RefusedText(texts, env.message), Failure))
      case Threw(_) => s.(alert := Shown(Some(texts.fetchThrown), Failure));
    Settled(c, next)
  }

  /** The request a submission sends: an update of the editing target, or a creation. */
  function SubmitRequest<R, D, P, Q>(c: Config<R, D, P, Q>, s: Snapshot<R, D, Q>): (q: Request<P>)
    requires c.backend.Remote?
    ensures s.editing.Some? ==> q == Put(c.idOf(s.editing.value), c.backend.payload(s.draft))
    ensures s.editing.None? ==> q == Post(c.backend.payload(s.draft))
  {
    match s.editing
    case Some(r) => Put(c.idOf(r), c.backend.payload(s.draft))
    case None => Post(c.backend.payload(s.draft))
  }

  function SaveThrownText(t: Texts, error: Option<ErrorBody>): (m: string)
    ensures !t.saveThrownUsesServer ==> m == t.saveThrown
    ensures t.saveThrownUsesServer ==> m == OrElse(ServerMessage(error), t.saveThrown)
  {
    if t.saveThrownUsesServer then OrElse(ServerMessage(error), t.saveThrown) else t.saveThrown
  }

  /** The thrown error, when the reply is one. */
  function ErrorOf<T>(reply: Response<Envelope<T>>): Option<ErrorBody> {
    if reply.Threw? then reply.error else None
  }

  /** `showAlert(..., 'error')` after a refused or thrown save or delete. */
  function FailureAlert<T>(reply: Response<Envelope<T>>, thrown: string): (a: Alert)
    ensures a.Shown? && a.kind == Failure
    ensures reply.Got? ==> a.message == reply.body.message
    ensures reply.Threw? ==> a.message == Some(thrown)
  {
    if reply.Got? then Shown(reply.body.message, Failure) else Shown(Some(thrown), Failure)
  }

  /**
   * An accepted save: the list is refetched and the modal closes with the
   * server's message as success. An awaited refetch lands before the
   * success alert, so its own alert is overwritten; an un-awaited one
   * lands after it.
   */
  function Saved<R, D, P, Q>(c: Config<R, D, P, Q>, s: Snapshot<R, D, Q>, message: Option<string>, refetch: Listing<R>): (t: Snapshot<R, D, Q>)
    requires c.backend.Remote?
    ensures !t.modalOpen && t.editing.None? && t.draft == Close(c, s).draft
    ensures t.list == (if Accepted(c, refetch) then refetch.body.data else s.list)
    ensures c.backend.refetch == Awaited ==> t.alert == Shown(message, Success)
    ensures c.backend.refetch == NotAwaited ==> t.alert == ApplyFetch(c, s.(alert := Shown(message, Success)), refetch).alert
    ensures t.query == s.query && t.deleteOpen == s.deleteOpen && t.pending == s.pending
    ensures t.loading == Settled(c, s).loading
  {
    var ok := Shown(message, Success);
    if c.backend.refetch == Awaited then Close(c, ApplyFetch(c, s, refetch)).(alert := ok)
    else ApplyFetch(c, Close(c, s).(alert := ok), refetch)
  }

  /**
   * The submission's outcome: `Saved` when accepted; otherwise the modal
   * stays open over the same draft and target, with an error alert.
   */
  function AfterSubmit<R, D, P, Q>(c: Config<R, D, P, Q>, s: Snapshot<R, D, Q>, reply: Ack, refetch: Listing<R>): (t: Snapshot<R, D, Q>)
    requires c.backend.Remote?
    ensures Accepted(c, reply) ==> t == Settled(c, Saved(c, s, reply.body.message, refetch))
    ensures !Accepted(c, reply) ==> t.(alert := s.alert, loading := s.loading) == s
    ensures !Accepted(c, reply) ==> t.alert == FailureAlert(reply, SaveThrownText(c.backend.texts, ErrorOf(reply)))
    ensures t.loading == Settled(c, s).loading
  {
    if Accepted(c, reply) then Settled(c, Saved(c, s, reply.body.message, refetch))
    else Settled(c, s.(alert := FailureAlert(reply, SaveThrownText(c.backend.texts, ErrorOf(reply)))))
  }

  /**
   * An accepted delete: the dialog closes and the pending id is cleared;
   * the list is filtered locally, or refetched (awaited or not).
   */
  function Removed<R(==), D, P, Q>(c: Config<R, D, P, Q>, s: Snapshot<R, D, Q>, message: Option<string>, refetch: Listing<R>): (t: Snapshot<R, D, Q>)
    requires c.backend.Remote?
    ensures !t.deleteOpen && t.pending.None?
    ensures c.backend.afterDelete == RemoveLocally ==>
              t.list == RemoveById(s.list, c.idOf, s.pending) && t.alert == Shown(message, Success)
    ensures c.backend.afterDelete == RefetchList ==>
              t.list == (if Accepted(c, refetch) then refetch.body.data else s.list)
    ensures c.backend.afterDelete == RefetchList && c.backend.refetch == Awaited ==> t.alert == Shown(message, Success)
    ensures c.backend.afterDelete == RefetchList && c.backend.refetch == NotAwaited ==>
              t.alert == ApplyFetch(c, s.(alert := Shown(message, Success)), refetch).alert
    ensures t.query == s.query && t.draft == s.draft && t.editing == s.editing && t.modalOpen == s.modalOpen
  {
    var ok := Shown(message, Success);
    if c.backend.afterDelete == RemoveLocally then
      s.(list := RemoveById(s.list, c.idOf, s.pending), deleteOpen := false, pending := None, alert := ok)
    else if c.backend.refetch == Awaited then ApplyFetch(c, s, refetch).(deleteOpen := false, pending := None, alert := ok)
    else ApplyFetch(c, s.(deleteOpen := false, pending := None, alert := ok), refetch)
  }

  /**
   * The confirmed delete's outcome: `Removed` when accepted; otherwise the
   * dialog, the pending id and the list stay, with an error alert.
   */
  function AfterRemove<R(==), D, P, Q>(c: Config<R, D, P, Q>, s: Snapshot<R, D, Q>, reply: Ack, refetch: Listing<R>): (t: Snapshot<R, D, Q>)
    requires c.backend.Remote?
    ensures Accepted(c, reply) ==> t == Settled(c, Removed(c, s, reply.body.message, refetch))
    ensures !Accepted(c, reply) ==> t.(alert := s.alert, loading := s.loading) == s
    ensures !Accepted(c, reply) ==> t.alert == FailureAlert(reply, c.backend.texts.deleteThrown)
    ensures t.loading == Settled(c, s).loading
  {
    if Accepted(c, reply) then Settled(c, Removed(c, s, reply.body.message, refetch))
    else Settled(c, s.(alert := FailureAlert(reply, c.backend.texts.deleteThrown)))
  }

  /**
   * A click on the delete dialog's Action button. The button runs
   * `handleDelete` and then closes its own dialog through
   * `onOpenChange(false)`, before the reply arrives; so the dialog ends
   * closed whatever the outcome, and a refused or thrown delete keeps the
   * pending id.
   */
  function ClickDelete<R(==), D, P, Q>(c: Config<R, D, P, Q>, s: Snapshot<R, D, Q>, reply: Ack, refetch: Listing<R>): (t: Snapshot<R, D, Q>)
    requires c.backend.Remote?
    ensures !t.deleteOpen
    ensures Accepted(c, reply) ==> t == AfterRemove(c, s, reply, refetch)
    ensures !Accepted(c, reply) ==>
              t == s.(deleteOpen := false, alert := FailureAlert(reply, c.backend.texts.deleteThrown),
                      loading := Settled(c, s).loading)
  {
    AfterRemove(c, CancelDelete(s), reply, refetch)
  }

  /** On a screen with a loading flag, no handler leaves it raised. */
  lemma HandlersSettle<R, D, P, Q>(c: Config<R, D, P, Q>, s: Snapshot<R, D, Q>, ack: Ack, listing: Listing<R>)
    requires c.backend.Remote? && c.backend.tracksLoading
    ensures !ApplyFetch(c, InFlight(c, s), listing).loading
    ensures !AfterSubmit(c, InFlight(c, s), ack, listing).loading
    ensures !ClickDelete(c, InFlight(c, s), ack, listing).loading
  {
  }

  /** A refused fetch never touches the cache, whatever state it lands in. */
  lemma RefusedFetchKeepsCache<R, D, P, Q>(c: Config<R, D, P, Q>, s: Snapshot<R, D, Q>, reply: Listing<R>)
    requires c.backend.Remote? && !Accepted(c, reply)
    ensures ApplyFetch(c, s, reply).list == s.list
    ensures Visible(c, ApplyFetch(c, s, reply)) == Visible(c, s)
  {
  }

  // ------------------------------------------------------ page-local lists

  /**
   * No record of the list carries the id. A creation asks this of its
   * fresh id (the code takes `Date.now()` for it), so that afterwards the
   * new record is the only one with that id.
   */
  predicate Unused<R>(idOf: R -> int, xs: seq<R>, id: int) {
    forall i :: 0 <= i < |xs| ==> idOf(xs[i]) != id
  }

  /**
   * A page-local submission: replace the record with the editing target's
   * id, or append a record built with a fresh id; then close.
   */
  function SubmitLocal<R, D, P, Q>(c: Config<R, D, P, Q>, s: Snapshot<R, D, Q>, freshId: int): (t: Snapshot<R, D, Q>)
    requires c.backend.LocalOnly?
    requires s.editing.None? ==> Unused(c.idOf, s.list, freshId)
    ensures s.editing.Some? ==>
              var id := c.idOf(s.editing.value);
              t.list == ReplaceById(s.list, c.idOf, id, c.backend.build(id, s.draft))
    ensures s.editing.None? ==> t.list == s.list + [c.backend.build(freshId, s.draft)]
    ensures t == Close(c, s).(list := t.list)
  {
    var updated :=
      match s.editing
      case Some(e) =>
        var id := c.idOf(e);
        ReplaceById(s.list, c.idOf, id, c.backend.build(id, s.draft))
      case None => s.list + [c.backend.build(freshId, s.draft)];
    Close(c, s.(list := updated))
  }

  /** A page-local delete: drop every record with the pending id, close, forget the id. */
  function RemoveLocal<R(==), D, P, Q>(c: Config<R, D, P, Q>, s: Snapshot<R, D, Q>): (t: Snapshot<R, D, Q>)
    ensures t.list == RemoveById(s.list, c.idOf, s.pending)
    ensures t == s.(list := t.list, deleteOpen := false, pending := None)
  {
    s.(list := RemoveById(s.list, c.idOf, s.pending), deleteOpen := false, pending := None)
  }

  /** Building a record from the draft keeps the id it is given. */
  predicate BuildKeepsId<R, D, P, Q>(c: Config<R, D, P, Q>, id: int, d: D)
    requires c.backend.LocalOnly?
  {
    c.idOf(c.backend.build(id, d)) == id
  }

  /**
   * An edit replaces exactly the records with the target's id, by the
   * rebuilt record, and leaves every other record and every id in place.
   */
  lemma LocalEditReplacesTarget<R, D, P, Q>(c: Config<R, D, P, Q>, s: Snapshot<R, D, Q>)
    requires c.backend.LocalOnly? && s.editing.Some? && BuildKeepsId(c, c.idOf(s.editing.value), s.draft)
    ensures var t := SubmitLocal(c, s, 0);
            var id := c.idOf(s.editing.value);
            |t.list| == |s.list|
            && (forall i :: 0 <= i < |s.list| && c.idOf(s.list[i]) == id ==> t.list[i] == c.backend.build(id, s.draft))
            && (forall i :: 0 <= i < |s.list| && c.idOf(s.list[i]) != id ==> t.list[i] == s.list[i])
            && (forall i :: 0 <= i < |s.list| ==> c.idOf(t.list[i]) == c.idOf(s.list[i]))
  {
  }

  /** A creation appends one record with the fresh id and leaves the others untouched. */
  lemma LocalCreateAppends<R, D, P, Q>(c: Config<R, D, P, Q>, s: Snapshot<R, D, Q>, freshId: int)
    requires c.backend.LocalOnly? && BuildKeepsId(c, freshId, s.draft)
    requires s.editing.None? && Unused(c.idOf, s.list, freshId)
    ensures var t := SubmitLocal(c, s, freshId);
            |t.list| == |s.list| + 1 && t.list[..|s.list|] == s.list
            && c.idOf(t.list[|s.list|]) == freshId && t.list[|s.list|] == c.backend.build(freshId, s.draft)
    ensures var t := SubmitLocal(c, s, freshId);
            forall i :: 0 <= i < |t.list| && c.idOf(t.list[i]) == freshId ==> i == |s.list|
  {
    var t := SubmitLocal(c, s, freshId);
    assert t.list[..|s.list|] == s.list;
  }

  /**
   * A local delete keeps exactly the records whose id differs from the
   * pending one, in their order; with no pending id it keeps the list.
   */
  lemma LocalRemoveExactly<R, D, P, Q>(c: Config<R, D, P, Q>, s: Snapshot<R, D, Q>)
    ensures var t := RemoveLocal(c, s);
            (forall x :: x in t.list <==> x in s.list && OtherThan(c.idOf, s.pending, x))
            && Subsequence(t.list, s.list)
            && (s.pending.None? ==> t.list == s.list)
  {
    var ys := RemoveById(s.list, c.idOf, s.pending);
    forall x
      ensures x in ys <==> x in s.list && OtherThan(c.idOf, s.pending, x)
    {
      if x in ys {
        var i :| 0 <= i < |ys| && ys[i] == x;
      }
      if x in s.list && OtherThan(c.idOf, s.pending, x) {
        var i :| 0 <= i < |s.list| && s.list[i] == x;
      }
    }
    RemoveKeepsOrder(s.list, c.idOf, s.pending);
    if s.pending.None? {
      RemoveNothing(s.list, c.idOf);
    }
  }

  // ------------------------------------------------------------- the class

  /** A mounted screen: its state cells, updated by one method per handler. */
  class Screen<R(==), D, P, Q> {
    const config: Config<R, D, P, Q>
    var list: seq<R>
    var query: Q
    var draft: D
    var editing: Option<R>
    var modalOpen: bool
    var deleteOpen: bool
    var pending: Option<int>
    var alert: Alert
    var loading: bool

    function State(): Snapshot<R, D, Q>
      reads this
    {
      Snapshot(list, query, draft, editing, modalOpen, deleteOpen, pending, alert, loading)
    }

    constructor (c: Config<R, D, P, Q>)
      ensures config == c && State() == Mount(c)
    {
      config := c;
      list, query, draft, editing := [], c.noQuery, c.createDraft, None;
      modalOpen, deleteOpen, pending, alert, loading := false, false, None, Hidden, false;
    }

    /** The records the table shows. */
    function Rows(): (rs: seq<R>)
      reads this
      ensures forall i :: 0 <= i < |rs| ==> rs[i] in list && config.matches(rs[i], query)
      ensures forall i :: 0 <= i < |list| && config.matches(list[i], query) ==> list[i] in rs
      ensures Subsequence(rs, list)
    {
      VisibleExactly(config, State());
      Visible(config, State())
    }

    method OpenModalFor(r: R)
      modifies this
      ensures State() == OpenForEdit(config, old(State()), r)
    {
      editing := Some(r);
      draft := config.editDraft(r);
      modalOpen := true;
    }

    method OpenModal()
      modifies this
      ensures State() == OpenForCreate(config, old(State()))
    {
      editing := None;
      draft := config.createDraft;
      modalOpen := true;
    }

    method CloseModal()
      modifies this
      ensures State() == Close(config, old(State()))
    {
      modalOpen := false;
      editing := None;
      if config.closeResetsDraft {
        draft := config.createDraft;
      }
    }

    method DismissModal()
      modifies this
      ensures State() == Dismiss(config, old(State()))
    {
      if config.dismissCloses {
        CloseModal();
      } else {
        modalOpen := false;
      }
    }

    method Search(q: Q)
      modifies this
      ensures State() == SetQuery(old(State()), q)
    {
      query := q;
    }

    method EditDraft(d: D)
      modifies this
      ensures State() == SetDraft(old(State()), d)
    {
      draft := d;
    }

    method ConfirmDelete(id: int)
      modifies this
      ensures State() == AskDelete(old(State()), id)
    {
      pending := Some(id);
      deleteOpen := true;
    }

    method CancelDeleteDialog()
      modifies this
      ensures State() == CancelDelete(old(State()))
    {
      deleteOpen := false;
    }

    /** Raise the loading flag as a request leaves, on a screen that has one. */
    method Begin()
      modifies this
      ensures State() == InFlight(config, old(State()))
    {
      if config.backend.Remote? && config.backend.tracksLoading {
        loading := true;
      }
    }

    method Settle()
      modifies this
      ensures State() == Settled(config, old(State()))
    {
      if config.backend.Remote? && config.backend.tracksLoading {
        loading := false;
      }
    }

    /** The list fetch, given its reply. */
    method Fetch(reply: Listing<R>)
      requires config.backend.Remote?
      modifies this
      ensures State() == ApplyFetch(config, old(State()), reply)
    {
      match reply {
        case Got(env) =>
          if Passes(config.backend.test, env.status) {
            list := env.data;
            if config.backend.texts.fetchOk.Some? {
              alert := Http.Shown(config.backend.texts.fetchOk, Success);
            }
          } else {
            alert := Http.Shown(RefusedText(config.backend.texts, env.message), Failure);
          }
        case Threw(_) =>
          alert := Http.Shown(Some(config.backend.texts.fetchThrown), Failure);
      }
      Settle();
    }

    /** `handleSubmit`, given the reply and the reply of the refetch it triggers. */
    method Submit(reply: Ack, refetch: Listing<R>) returns (request: Request<P>)
      requires config.backend.Remote?
      modifies this
      ensures request == SubmitRequest(config, old(State()))
      ensures State() == AfterSubmit(config, old(State()), reply, refetch)
    {
      request := SubmitRequest(config, State());
      if Accepted(config, reply) {
        if config.backend.refetch == Awaited {
          Fetch(refetch);
          CloseModal();
          alert := Http.Shown(reply.body.message, Success);
        } else {
          CloseModal();
          alert := Http.Shown(reply.body.message, Success);
          Fetch(refetch);
        }
      } else {
        alert := FailureAlert(reply, SaveThrownText(config.backend.texts, ErrorOf(reply)));
      }
      Settle();
    }

    /** `handleDelete`, given the reply and the reply of the refetch it may trigger. */
    method Delete(reply: Ack, refetch: Listing<R>) returns (request: Request<P>)
      requires config.backend.Remote?
      modifies this
      ensures request == Remove(old(pending))
      ensures State() == ClickDelete(config, old(State()), reply, refetch)
    {
      request := Remove(pending);
      deleteOpen := false;
      if Accepted(config, reply) {
        var ok := Http.Shown(reply.body.message, Success);
        if config.backend.afterDelete == RemoveLocally {
          list := RemoveById(list, config.idOf, pending);
          deleteOpen, pending, alert := false, None, ok;
        } else if config.backend.refetch == Awaited {
          Fetch(refetch);
          deleteOpen, pending, alert := false, None, ok;
        } else {
          deleteOpen, pending, alert := false, None, ok;
          Fetch(refetch);
        }
      } else {
        alert := FailureAlert(reply, config.backend.texts.deleteThrown);
      }
      Settle();
    }

    /** A page-local `handleSubmit`; `freshId` stands for `Date.now()`. */
    method SaveLocal(freshId: int)
      requires config.backend.LocalOnly?
      requires editing.None? ==> Unused(config.idOf, list, freshId)
      modifies this
      ensures State() == SubmitLocal(config, old(State()), freshId)
    {
      match editing {
        case Some(e) =>
          var id := config.idOf(e);
          list := ReplaceById(list, config.idOf, id, config.backend.build(id, draft));
        case None =>
          list := list + [config.backend.build(freshId, draft)];
      }
      CloseModal();
    }

    /** A page-local `handleDelete`. */
    method DeleteLocal()
      modifies this
      ensures State() == RemoveLocal(config, old(State()))
    {
      list := RemoveById(list, config.idOf, pending);
      deleteOpen := false;
      pending := None;
    }
  }
}
