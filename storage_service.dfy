/** The conversation history store: one persisted list of past exchanges,
    newest first, capped at 50 entries. The persisted value under the key
    "stored_conversations" is the field `stored`; reading it back yields the
    list, and a missing or unreadable value reads as the empty list. */
module StorageService {

  const MaxStored := 50
  const ConversationsKey := "stored_conversations"

  /** One history record; `localAudioPath` is optional in the source. */
  datatype StoredConversation = StoredConversation(
    id: string, timestamp: int, transcript: string, replyText: string,
    localAudioPath: string, serverAudioUrl: string)

  /** What the key-value store holds under the conversations key: nothing
      (or an empty string), a JSON array that parses, or something that
      makes reading throw. */
  datatype StoredValue = Absent | Parsed(list: seq<StoredConversation>) | Unreadable

  // ---------------------------------------------------------------------
  // The list transforms

  /** `[c, ...list].slice(0, 50)`. */
  function Prepended(c: StoredConversation, list: seq<StoredConversation>): seq<StoredConversation> {
    ([c] + list)[..Min(|list| + 1, MaxStored)]
  }

  function Min(a: int, b: int): int {
    if a <= b then a else b
  }

  /** `list.filter(c => c.id !== id)`. */
  function Without(list: seq<StoredConversation>, id: string): (r: seq<StoredConversation>)
    ensures |r| <= |list|
    ensures forall k | 0 <= k < |r| :: r[k].id != id
  {
    if list == [] then []
    else if list[0].id != id then [list[0]] + Without(list[1..], id)
    else Without(list[1..], id)
  }

  /** `a` is `b` with some elements dropped and the rest in their order. */
  predicate IsSubsequence(a: seq<StoredConversation>, b: seq<StoredConversation>)
    decreases |b|
  {
    if a == [] then true
    else if b == [] then false
    else (a[0] == b[0] && IsSubsequence(a[1..], b[1..])) || IsSubsequence(a, b[1..])
  }

  // ---------------------------------------------------------------------
  // Properties of saving

  /** After a save the new record is first, the list grows by one up to the
      cap, and what follows the new record is the old list with only its
      oldest entries cut off. */
  lemma PrependedShape(c: StoredConversation, list: seq<StoredConversation>)
    ensures var r := Prepended(c, list);
            && |r| == Min(|list| + 1, MaxStored)
            && r[0] == c
            && r[1..] == list[..|r| - 1]
  {
    var r := Prepended(c, list);
    assert r[1..] == list[..|r| - 1] by {
      forall k | 0 <= k < |r| - 1
        ensures r[1..][k] == list[..|r| - 1][k]
      {
        assert r[1..][k] == ([c] + list)[k + 1];
      }
    }
  }

  /** Below the cap nothing is evicted; at the cap every entry past the
      49th goes. */
  lemma PrependedEviction(c: StoredConversation, list: seq<StoredConversation>)
    ensures |list| < MaxStored ==> Prepended(c, list) == [c] + list
    ensures |list| >= MaxStored ==> Prepended(c, list) == [c] + list[..MaxStored - 1]
  {
    PrependedShape(c, list);
  }

  /** Saving never deduplicates: an old record with the same id is kept
      whenever it is not among the evicted oldest entries, and the new record
      is added even when one like it is present. */
  lemma PrependedKeepsDuplicates(c: StoredConversation, list: seq<StoredConversation>, k: nat)
    requires k < |list| && k < MaxStored - 1 && list[k].id == c.id
    ensures Prepended(c, list)[k + 1] == list[k]
    ensures multiset(Prepended(c, list))[c] == 1 + multiset(list[..Min(|list|, MaxStored - 1)])[c]
  {
    PrependedShape(c, list);
    var r := Prepended(c, list);
    assert r == [c] + r[1..];
    assert r[1..] == list[..Min(|list|, MaxStored - 1)];
  }

  // ---------------------------------------------------------------------
  // Properties of deleting

  /** Deleting keeps every other record as often as it occurred and drops
      every record with the id. */
  lemma {:induction false} WithoutCounts(list: seq<StoredConversation>, id: string, x: StoredConversation)
    ensures multiset(Without(list, id))[x] == if x.id == id then 0 else multiset(list)[x]
    decreases |list|
  {
    if list != [] {
      WithoutCounts(list[1..], id, x);
      assert list == [list[0]] + list[1..];
    } else {
      assert multiset(list) == multiset{};
    }
  }

  /** The records that remain keep their original order. */
  lemma {:induction false} WithoutIsSubsequence(list: seq<StoredConversation>, id: string)
    ensures IsSubsequence(Without(list, id), list)
    decreases |list|
  {
    if list != [] {
      WithoutIsSubsequence(list[1..], id);
      var rest := Without(list[1..], id);
      if list[0].id != id {
        assert ([list[0]] + rest)[1..] == rest;
      } else {
        SubsequenceOfTail(rest, list);
      }
    }
  }

  lemma SubsequenceOfTail(a: seq<StoredConversation>, b: seq<StoredConversation>)
    requires b != [] && IsSubsequence(a, b[1..])
    ensures IsSubsequence(a, b)
  {
  }

  /** A record with another id survives deletion. */
  lemma WithoutKeepsOthers(list: seq<StoredConversation>, id: string, x: StoredConversation)
    requires x in list && x.id != id
    ensures x in Without(list, id)
  {
    WithoutCounts(list, id, x);
  }

  /** Deleting an id that is not present changes nothing. */
  lemma {:induction false} WithoutAbsent(list: seq<StoredConversation>, id: string)
    requires forall k | 0 <= k < |list| :: list[k].id != id
    ensures Without(list, id) == list
    decreases |list|
  {
    if list != [] {
      WithoutAbsent(list[1..], id);
      assert [list[0]] + list[1..] == list;
    }
  }

  /** Deleting twice is deleting once. */
  lemma WithoutIdempotent(list: seq<StoredConversation>, id: string)
    ensures Without(Without(list, id), id) == Without(list, id)
  {
    WithoutAbsent(Without(list, id), id);
  }

  // ---------------------------------------------------------------------
  // The store

  /** What `getConversations` returns for a stored value. */
  function ReadBack(v: StoredValue): (r: seq<StoredConversation>)
    ensures v.Parsed? ==> r == v.list
    ensures !v.Parsed? ==> r == []
  {
    if v.Parsed? then v.list else []
  }

  class ConversationStore {
    var stored: StoredValue

    constructor (initial: StoredValue)
      ensures stored == initial
    {
      stored := initial;
    }

    /** The list a read returns now. */
    function Conversations(): seq<StoredConversation>
      reads this
    {
      ReadBack(stored)
    }

    /** getConversations: the parsed list, or [] when the key is missing or
        the value cannot be read. */
    method GetConversations() returns (r: seq<StoredConversation>)
      ensures r == Conversations()
      ensures stored.Parsed? ==> r == stored.list
      ensures !stored.Parsed? ==> r == []
    {
      match stored
      case Parsed(list) => r := list;
      case _ => r := [];
    }

    /** saveConversation: the new record first, the list capped at 50. */
    method SaveConversation(c: StoredConversation)
      modifies this
      ensures stored == Parsed(Prepended(c, old(Conversations())))
      ensures Conversations()[0] == c
      ensures |Conversations()| == Min(|old(Conversations())| + 1, MaxStored)
    {
      var conversations := GetConversations();
      var updated := ([c] + conversations)[..Min(|conversations| + 1, MaxStored)];
      PrependedShape(c, conversations);
      stored := Parsed(updated);
    }

    /** deleteConversation: every record with the id removed, the others
        kept in order. */
    method DeleteConversation(id: string)
      modifies this
      ensures stored == Parsed(Without(old(Conversations()), id))
      ensures forall k | 0 <= k < |Conversations()| :: Conversations()[k].id != id
      ensures IsSubsequence(Conversations(), old(Conversations()))
    {
      var conversations := GetConversations();
      var filtered := Without(conversations, id);
      WithoutIsSubsequence(conversations, id);
      stored := Parsed(filtered);
    }

    /** clearAllConversations: the key is removed, so a read gives []. */
    method ClearAllConversations()
      modifies this
      ensures stored == Absent
      ensures Conversations() == []
    {
      stored := Absent;
    }
  }
}
