/** `InstagramBot.is_new_message`: the processed-set lookup, the resolution
    of the message's timestamp attribute, and the five-minute staleness rule. */
module Freshness {
  import opened Settings

  type MessageId = string

  /** One optional timestamp attribute of a message object: absent, a time
      in seconds, or present but unusable (reading it raises, as
      `None.replace(...)` does). */
  datatype Attr = Missing | Seconds(t: int) | Unreadable

  /** The three attributes `is_new_message` probes, in the order it probes them. */
  datatype Stamp = Stamp(takenAt: Attr, timestamp: Attr, createdAt: Attr)

  /** The attribute the `hasattr` chain selects: the first one present. */
  function Resolve(st: Stamp): Attr {
    if st.takenAt != Missing then st.takenAt
    else if st.timestamp != Missing then st.timestamp
    else st.createdAt
  }

  /** Reference definition: the first present entry of a priority list. */
  function FirstPresent(attrs: seq<Attr>): (r: Attr)
    ensures r == Missing <==> forall i :: 0 <= i < |attrs| ==> attrs[i] == Missing
    ensures r != Missing ==> exists i :: 0 <= i < |attrs| && attrs[i] == r
                               && forall j :: 0 <= j < i ==> attrs[j] == Missing
  {
    if attrs == [] then Missing
    else if attrs[0] != Missing then attrs[0]
    else
      var r := FirstPresent(attrs[1..]);
      assert forall i :: 1 <= i < |attrs| ==> attrs[i] == attrs[1..][i - 1];
      r
  }

  /** The timestamp comes from `taken_at`, else `timestamp`, else
      `created_at`: the first of them that is present. */
  lemma ResolvePriority(st: Stamp)
    ensures Resolve(st) == FirstPresent([st.takenAt, st.timestamp, st.createdAt])
  {
    var attrs := [st.takenAt, st.timestamp, st.createdAt];
    assert attrs[1..] == [st.timestamp, st.createdAt];
    assert attrs[1..][1..] == [st.createdAt];
    assert attrs[1..][1..][1..] == [];
    assert FirstPresent([st.createdAt]) == st.createdAt;
    assert FirstPresent([st.timestamp, st.createdAt])
        == if st.timestamp != Missing then st.timestamp else st.createdAt;
  }

  /** The decision of `is_new_message` at clock reading `now`. */
  function IsNewMessage(processed: set<MessageId>, id: MessageId, st: Stamp, now: int): bool {
    if id in processed then false
    else match Resolve(st)
      case Missing => true
      case Unreadable => true
      case Seconds(t) => !(now - t > StaleAfter)
  }

  /** An id already in the processed set is never new, whatever its timestamp. */
  lemma ProcessedIsNotNew(processed: set<MessageId>, id: MessageId, st: Stamp, now: int)
    requires id in processed
    ensures !IsNewMessage(processed, id, st, now)
  {
  }

  /** For an unprocessed id the message is rejected exactly when a usable
      timestamp is more than five minutes older than `now`; without a
      timestamp, or when it cannot be read, the message is new (fail open). */
  lemma NewUnlessStale(processed: set<MessageId>, id: MessageId, st: Stamp, now: int)
    requires id !in processed
    ensures !IsNewMessage(processed, id, st, now) <==> Resolve(st).Seconds? && now - Resolve(st).t > StaleAfter
    ensures Resolve(st) == Missing ==> IsNewMessage(processed, id, st, now)
    ensures Resolve(st) == Unreadable ==> IsNewMessage(processed, id, st, now)
  {
  }

  /** The comparison is strict: exactly five minutes old is still new, one
      second more is stale. */
  lemma StaleBoundary(processed: set<MessageId>, id: MessageId, st: Stamp, t: int)
    requires id !in processed && Resolve(st) == Seconds(t)
    ensures IsNewMessage(processed, id, st, t + 300)
    ensures !IsNewMessage(processed, id, st, t + 301)
  {
  }

  /** A present but unreadable `taken_at` is not skipped in favour of a later
      attribute: the message is new even when `timestamp` says it is old. */
  lemma UnreadableShadowsLater(processed: set<MessageId>, id: MessageId, sent: int, now: int)
    requires id !in processed && now - sent > StaleAfter
    ensures IsNewMessage(processed, id, Stamp(Unreadable, Seconds(sent), Seconds(sent)), now)
    ensures !IsNewMessage(processed, id, Stamp(Missing, Seconds(sent), Unreadable), now)
  {
  }
}
