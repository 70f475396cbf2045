/**
 * Payment webhooks arrive any number of times, and some deliveries are rolled back and retried.
 * All that matters is the first delivery of each event that commits.
 */
module Webhooks {
  import opened Domain
  import opened Requests

  predicate Final(w: Webhook) { !w.verdict.Interim? }

  function DeliverAll(s: State, ws: seq<Webhook>): State {
    if |ws| == 0 then s else HandleWebhook(DeliverAll(s, ws[..|ws| - 1]), ws[|ws| - 1]).state
  }

  /** What the last of the deliveries was answered. */
  function LastReply(s: State, ws: seq<Webhook>): Result<Ack>
    requires |ws| > 0
  {
    HandleWebhook(DeliverAll(s, ws[..|ws| - 1]), ws[|ws| - 1]).reply
  }

  predicate Commits(reply: Result<Ack>) {
    reply.Ok? && !reply.value.Ignored? && !reply.value.Duplicate?
  }

  /** The deliveries of the run that committed something, in order. */
  function Committed(s: State, ws: seq<Webhook>): seq<Webhook> {
    if |ws| == 0 then []
    else
      var earlier := Committed(s, ws[..|ws| - 1]);
      if Commits(LastReply(s, ws)) then earlier + [ws[|ws| - 1]] else earlier
  }

  /** The deliveries of the run that were not rolled back. */
  function Surviving(s: State, ws: seq<Webhook>): seq<Webhook> {
    if |ws| == 0 then []
    else
      var earlier := Surviving(s, ws[..|ws| - 1]);
      if LastReply(s, ws).Ok? then earlier + [ws[|ws| - 1]] else earlier
  }

  function EventIds(ws: seq<Webhook>): set<EventId> { set i | 0 <= i < |ws| :: ws[i].eventId }

  /** The first final delivery of every event that is not already known, whatever the tables say. */
  function FirstOf(ws: seq<Webhook>, known: set<EventId>): seq<Webhook> {
    if |ws| == 0 then []
    else
      var earlier, last := FirstOf(ws[..|ws| - 1], known), ws[|ws| - 1];
      if Final(last) && last.eventId !in known && last.eventId !in EventIds(earlier) then earlier + [last] else earlier
  }

  lemma EventIdsAppend(ws: seq<Webhook>, w: Webhook)
    ensures EventIds(ws + [w]) == EventIds(ws) + {w.eventId}
  {
    assert (ws + [w])[|ws|] == w;
    assert forall i :: 0 <= i < |ws| ==> (ws + [w])[i] == ws[i];
  }

  /** The tables know exactly the events that were known before or committed since. */
  lemma {:induction false} EventsAreCommitted(s: State, ws: seq<Webhook>)
    ensures DeliverAll(s, ws).events.Keys == s.events.Keys + EventIds(Committed(s, ws))
    ensures EventIds(Committed(s, ws)) !! s.events.Keys
  {
    if |ws| > 0 {
      EventsAreCommitted(s, ws[..|ws| - 1]);
      EventIdsAppend(Committed(s, ws[..|ws| - 1]), ws[|ws| - 1]);
    }
  }

  /** Only the committed deliveries have an effect on the tables. */
  lemma {:induction false} CommittedSuffice(s: State, ws: seq<Webhook>)
    ensures DeliverAll(s, Committed(s, ws)) == DeliverAll(s, ws)
  {
    if |ws| > 0 {
      var earlier := ws[..|ws| - 1];
      CommittedSuffice(s, earlier);
      if Commits(LastReply(s, ws)) {
        assert Committed(s, ws)[..|Committed(s, ws)| - 1] == Committed(s, earlier);
      }
    }
  }

  /** The committed deliveries are the first occurrences among those that were not rolled back. */
  lemma {:induction false} CommittedAreFirst(s: State, ws: seq<Webhook>)
    ensures Committed(s, ws) == FirstOf(Surviving(s, ws), s.events.Keys)
  {
    if |ws| > 0 {
      var earlier, last := ws[..|ws| - 1], ws[|ws| - 1];
      CommittedAreFirst(s, earlier);
      EventsAreCommitted(s, earlier);
      if LastReply(s, ws).Ok? {
        assert Surviving(s, ws)[..|Surviving(s, ws)| - 1] == Surviving(s, earlier);
      }
    }
  }

  /**
   * Any sequence of deliveries, with duplicates and with retries after rolled-back failures,
   * leaves the shard in the state that the first surviving delivery of each new event leaves.
   */
  lemma {:induction false} WebhooksCollapse(s: State, ws: seq<Webhook>)
    ensures DeliverAll(s, ws) == DeliverAll(s, FirstOf(Surviving(s, ws), s.events.Keys))
  {
    CommittedSuffice(s, ws);
    CommittedAreFirst(s, ws);
  }

  /** No event is applied twice. */
  lemma {:induction false} FirstOfIsDistinct(ws: seq<Webhook>, known: set<EventId>)
    ensures var first := FirstOf(ws, known);
            forall i, j :: 0 <= i < j < |first| ==> first[i].eventId != first[j].eventId
    ensures EventIds(FirstOf(ws, known)) == (set i | 0 <= i < |ws| && Final(ws[i]) :: ws[i].eventId) - known
  {
    if |ws| > 0 {
      var earlier, last := ws[..|ws| - 1], ws[|ws| - 1];
      FirstOfIsDistinct(earlier, known);
      EventIdsAppend(FirstOf(earlier, known), last);
      var before := set i | 0 <= i < |earlier| && Final(earlier[i]) :: earlier[i].eventId;
      var all := set i | 0 <= i < |ws| && Final(ws[i]) :: ws[i].eventId;
      assert all == before + (if Final(last) then {last.eventId} else {}) by {
        forall e | e in before ensures e in all {
          var i :| 0 <= i < |earlier| && Final(earlier[i]) && earlier[i].eventId == e;
          assert ws[i] == earlier[i];
        }
        if Final(last) {
          assert ws[|ws| - 1].eventId in all;
        }
        forall e | e in all ensures e in before || (Final(last) && e == last.eventId) {
          var i :| 0 <= i < |ws| && Final(ws[i]) && ws[i].eventId == e;
          assert i < |earlier| ==> earlier[i] == ws[i];
        }
      }
    }
  }

  /** Delivering a whole run again changes nothing more, as long as every event got through. */
  lemma {:induction false} RedeliveryIsHarmless(s: State, ws: seq<Webhook>)
    requires forall i :: 0 <= i < |ws| && Final(ws[i]) ==> ws[i].eventId in s.events
    ensures DeliverAll(s, ws) == s
  {
    if |ws| > 0 {
      RedeliveryIsHarmless(s, ws[..|ws| - 1]);
    }
  }
}
