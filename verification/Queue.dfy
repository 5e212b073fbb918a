/** The embedding queue: what an entry asks for, and the conditional updates
    the worker makes. Each update is decided on the stored entry, under its key's
    lock, and never touches one that asks for something else. */
module Queue {
  import opened Codes
  import opened Vectors

  datatype Kind = Embed | Clear

  datatype Item = Item(kind: Kind, text: Text, retries: nat, error: Option<Text>) {
    /** Whether this is still the entry `e` was taken from: retry bookkeeping is
        ignored. */
    predicate Is(e: Item) {
      kind == e.kind && text == e.text
    }
  }

  /** What is queued: a tombstone is always written without text. */
  type Entry = i: Item | i.kind.Clear? ==> i.text == [] witness CLEAR

  function EmbedOf(t: Text): Entry { Item(Embed, t, 0, None) }

  const CLEAR := Item(Clear, [], 0, None)

  /** What completing an entry found. */
  datatype Completion = Done | Superseded | Cleared

  /** `complete_entry`: the stored entry afterwards, and what was found. */
  function Complete(stored: Option<Entry>, e: Entry): (Option<Entry>, Completion) {
    match stored
    case None => (None, Done)
    case Some(v) =>
      if v.Is(e) then (None, Done)
      else if v.kind.Clear? then (stored, Cleared)
      else (stored, Superseded)
  }

  /** `record_queue_failure`: the stored entry afterwards, and its new retry count. */
  function Fail(stored: Option<Entry>, e: Entry, error: Text): (Option<Entry>, Option<nat>) {
    if stored.Some? && stored.value.Is(e) then
      (Some(stored.value.(retries := stored.value.retries + 1, error := Some(error))), Some(stored.value.retries + 1))
    else (stored, None)
  }

  /** A failure is counted once and its error kept, on the entry it was made with; on
      any other, nothing. */
  lemma FailCounts(stored: Option<Entry>, e: Entry, error: Text)
    ensures var (after, retries) := Fail(stored, e, error);
            if stored.Some? && stored.value.kind == e.kind && stored.value.text == e.text then
              && after.Some? && after.value.kind == e.kind && after.value.text == e.text
              && after.value.retries == stored.value.retries + 1 && retries == Some(stored.value.retries + 1)
              && after.value.error == Some(error)
            else after == stored && retries.None?
  {
  }

  /** An admin's retry only forgets the failures. */
  lemma ResetForgetsFailures(stored: Entry)
    ensures Reset(Some(stored)) == Some(Item(stored.kind, stored.text, 0, None)) && Reset(None) == None
  {
  }

  /** An entry is completed, that is removed, exactly if it is still the one carried
      out; a tombstone found instead is reported. */
  lemma CompleteRemovesIff(stored: Option<Entry>, e: Entry)
    ensures var (after, found) := Complete(stored, e);
            && (after == stored || after.None?)
            && (after != stored <==> stored.Some? && stored.value.kind == e.kind && stored.value.text == e.text)
            && (found.Cleared? <==> stored.Some? && after == stored && stored.value.kind.Clear?)
            && (found.Superseded? <==> stored.Some? && after == stored && stored.value.kind.Embed?)
  {
  }

  /** Whether an entry describes a document whose embedding text is `current`. */
  predicate Describes(e: Entry, current: Option<Text>) {
    match (e.kind, current)
    case (Embed, Some(t)) => t == e.text
    case (Clear, None) => true
    case _ => false
  }

  /** The entry a document's state asks for. */
  function Asking(current: Option<Text>): (r: Entry)
    ensures Describes(r, current)
  {
    if current.Some? then EmbedOf(current.value) else CLEAR
  }

  /** `check_entry_against_document`: the stored entry afterwards, and whether
      `e` describes the document. */
  function Check(stored: Option<Entry>, e: Entry, current: Option<Text>): (Option<Entry>, bool) {
    if Describes(e, current) then (stored, true)
    else if stored.Some? && stored.value.Is(e) then (Some(Asking(current)), false)
    else (stored, false)
  }

  /** The stored entry after the worker's turn on it, with no client about: gone
      if it asked for what the document holds, and asking for that otherwise. */
  function Turn(stored: Option<Entry>, current: Option<Text>): (r: Option<Entry>)
    ensures r.Some? ==> Describes(r.value, current)
  {
    if stored.None? || Describes(stored.value, current) then None else Some(Asking(current))
  }

  /** `reset_queue_entry`: a fresh retry count, whatever the entry asks for. */
  function Reset(stored: Option<Entry>): Option<Entry> {
    if stored.Some? then Some(stored.value.(retries := 0, error := None)) else None
  }

  /** None of the worker's updates, nor an admin's retry, removes an entry that
      asks for something else than the one acted on, or changes what it asks
      for; and only a check that finds the document different rewrites one. */
  lemma UpdatesLeaveOthersAlone(stored: Option<Entry>, e: Entry, current: Option<Text>, error: Text)
    ensures stored.Some? && !stored.value.Is(e) ==>
              && Complete(stored, e).0 == stored
              && Fail(stored, e, error).0 == stored
              && Check(stored, e, current).0 == stored
    ensures stored.Some? ==>
              && Fail(stored, e, error).0.Some? && Fail(stored, e, error).0.value.Is(stored.value)
              && Reset(stored).Some? && Reset(stored).value.Is(stored.value)
    ensures Check(stored, e, current).0 != stored ==>
            !Describes(e, current) && Describes(Check(stored, e, current).0.value, current)
    ensures stored.None? ==>
            Complete(stored, e).0.None? && Fail(stored, e, error).0.None? && Check(stored, e, current).0.None?
  {
  }
}
