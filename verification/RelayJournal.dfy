/** What one relay does to the outside world, in program order. */
module RelayJournal {
  import opened OutboxTables

  /** A publication, or a store call that took effect on the record it named. */
  datatype Entry =
    | Delivered(event: Event)
    | Removed(recordId: string)
    | Postponed(recordId: string)
    | Buried(recordId: string)

  class Journal {
    ghost var entries: seq<Entry>

    constructor ()
      ensures entries == []
    {
      entries := [];
    }

    ghost method Add(more: seq<Entry>)
      modifies this
      ensures entries == old(entries) + more
    {
      entries := entries + more;
    }
  }

  /** Publish returned nil; it failed without a delivery; or it failed or panicked after one. */
  datatype Delivery = Acknowledged | Dropped | Unacknowledged

  /** How far a relay gets with one record. */
  datatype Progress =
    | FailsEarly                     // decode error, or a panic in the codec or the header restorer
    | PublishFails(delivered: bool)  // Publish returned an error or panicked
    | Publishes                      // Publish returned nil
    | PublishesThenPanics            // and the MarkSent call panicked

  function Fate(progress: Progress): Delivery {
    match progress
    case PublishFails(delivered) => if delivered then Unacknowledged else Dropped
    case _ => Acknowledged
  }

  class Publisher {
    const journal: Journal

    constructor (journal: Journal)
      ensures this.journal == journal
    {
      this.journal := journal;
    }

    method Publish(event: Event, fate: Delivery) returns (ok: bool)
      modifies journal
      ensures ok <==> fate.Acknowledged?
      ensures journal.entries == old(journal.entries) + if fate.Dropped? then [] else [Delivered(event)]
    {
      if !fate.Dropped? {
        journal.Add([Delivered(event)]);
      }
      return fate.Acknowledged?;
    }
  }
}
