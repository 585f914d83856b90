/** The chat replica of one couple (src/hooks/useMessages.tsx): a wholesale
    fetch, an optimistic send that appends a message under a temporary id and
    removes it again when the insert fails, and a realtime INSERT listener
    that appends a message unless its id is already present. */
module Messages {
  import opened Common
  import opened Text
  import opened Realtime

  datatype Message = Message(
    id: string, coupleId: string, senderId: string,
    content: string, messageType: string, createdAt: string)

  /** The row `sendMessage` asks the service to insert. */
  datatype MessageRow = MessageRow(coupleId: string, senderId: string, content: string, messageType: string)

  /** A send in flight: the temporary id shown in the list and the insert issued. */
  datatype PendingSend = PendingSend(tempId: string, row: MessageRow)

  predicate HasId(ms: seq<Message>, id: string) {
    exists k :: 0 <= k < |ms| && ms[k].id == id
  }

  predicate UniqueIds(ms: seq<Message>) {
    forall i, j :: 0 <= i < j < |ms| ==> ms[i].id != ms[j].id
  }

  /** The number of messages with the given content. */
  function CountContent(ms: seq<Message>, content: string): nat {
    if ms == [] then 0
    else CountContent(ms[..|ms| - 1], content) + (if ms[|ms| - 1].content == content then 1 else 0)
  }

  /** `messageType: string = 'text'`: the default applies only when the argument is absent. */
  function TypeOrText(messageType: Option<string>): string {
    if messageType.Some? then messageType.value else "text"
  }

  /** The rollback updater `prev => prev.filter(m => m.id !== tempId)`. */
  function WithoutId(ms: seq<Message>, id: string): (r: seq<Message>)
    ensures !HasId(r, id)
    ensures forall k :: 0 <= k < |r| ==> r[k] in ms
    ensures forall k :: 0 <= k < |ms| && ms[k].id != id ==> ms[k] in r
  {
    Filter(ms, (m: Message) => m.id != id)
  }

  /** The realtime updater: `prev.some(m => m.id === new.id) ? prev : [...prev, new]`. */
  function Delivered(ms: seq<Message>, m: Message): seq<Message> {
    if HasId(ms, m.id) then ms else ms + [m]
  }

  /** The listener registered while a couple is bound: INSERTs on `messages`
      filtered to that couple's id. */
  function Channel(coupleId: Option<string>): seq<Listener> {
    if Given(coupleId) then [Listener("messages", OnlyOp(Insert), Some(coupleId.value))] else []
  }

  /** Only INSERTs of the bound couple's messages reach the callback, and none
      do while no couple is bound. */
  lemma ChannelScoped(coupleId: Option<string>, c: Change)
    requires Receives(Channel(coupleId), c)
    ensures Given(coupleId)
    ensures c == Change("messages", Insert, coupleId.value)
  {
    var k :| 0 <= k < |Channel(coupleId)| && Matches(Channel(coupleId)[k], c);
  }

  /** Every insert of the bound couple's messages reaches the callback. */
  lemma ChannelComplete(coupleId: Option<string>)
    requires Given(coupleId)
    ensures Receives(Channel(coupleId), Change("messages", Insert, coupleId.value))
  {
    assert Matches(Channel(coupleId)[0], Change("messages", Insert, coupleId.value));
  }

  /** Delivering the same realtime insert twice is delivering it once. */
  lemma DeliveredIdempotent(ms: seq<Message>, m: Message)
    ensures Delivered(Delivered(ms, m), m) == Delivered(ms, m)
  {
    if !HasId(ms, m.id) {
      assert (ms + [m])[|ms|] == m;
    }
  }

  /** Delivery keeps ids unique, and afterwards the id is present. */
  lemma DeliveredKeepsUnique(ms: seq<Message>, m: Message)
    requires UniqueIds(ms)
    ensures UniqueIds(Delivered(ms, m))
    ensures HasId(Delivered(ms, m), m.id)
  {
    if !HasId(ms, m.id) {
      var r := ms + [m];
      assert r[|ms|] == m;
      forall i, j | 0 <= i < j < |r| ensures r[i].id != r[j].id {
        if j == |ms| {
          assert r[i] == ms[i];
        }
      }
    }
  }

  /** Delivery never removes or reorders what is there: it appends the
      message or changes nothing. */
  lemma DeliveredExtends(ms: seq<Message>, m: Message)
    ensures Delivered(ms, m) == ms <==> HasId(ms, m.id)
    ensures !HasId(ms, m.id) ==> Delivered(ms, m) == ms + [m]
  {
    if !HasId(ms, m.id) {
      assert |ms + [m]| != |ms|;
    }
  }

  /** The rollback filter works piecewise, so the entries it keeps stay in order. */
  lemma WithoutIdAppend(a: seq<Message>, b: seq<Message>, id: string)
    ensures WithoutId(a + b, id) == WithoutId(a, id) + WithoutId(b, id)
  {
    FilterAppend(a, b, (m: Message) => m.id != id);
  }

  /** The rollback leaves a list without the temporary id untouched. */
  lemma {:induction false} WithoutIdAbsent(ms: seq<Message>, id: string)
    requires !HasId(ms, id)
    ensures WithoutId(ms, id) == ms
  {
    if ms != [] {
      assert !HasId(ms[1..], id) by {
        forall k | 0 <= k < |ms[1..]| ensures ms[1..][k].id != id {
          assert ms[1..][k] == ms[k + 1];
        }
      }
      WithoutIdAbsent(ms[1..], id);
      assert ms[0].id != id;
    }
  }

  /** A failed send right after its optimistic append restores the list. */
  lemma RollbackUndoesSend(ms: seq<Message>, temp: Message)
    requires !HasId(ms, temp.id)
    ensures WithoutId(ms + [temp], temp.id) == ms
  {
    WithoutIdAppend(ms, [temp], temp.id);
    WithoutIdAbsent(ms, temp.id);
    assert WithoutId([temp], temp.id) == [];
  }

  /** A realtime insert that arrives while the send is in flight survives the
      rollback: the rollback touches only the temporary id. */
  lemma RollbackAfterDelivery(ms: seq<Message>, temp: Message, e: Message)
    requires !HasId(ms, temp.id) && e.id != temp.id
    ensures WithoutId(Delivered(ms + [temp], e), temp.id) == Delivered(ms, e)
  {
    assert HasId(ms + [temp], e.id) <==> HasId(ms, e.id) by {
      if HasId(ms + [temp], e.id) {
        var k :| 0 <= k < |ms + [temp]| && (ms + [temp])[k].id == e.id;
        assert k < |ms| && ms[k] == (ms + [temp])[k];
      }
      if HasId(ms, e.id) {
        var k :| 0 <= k < |ms| && ms[k].id == e.id;
        assert (ms + [temp])[k] == ms[k];
      }
    }
    if HasId(ms, e.id) {
      RollbackUndoesSend(ms, temp);
    } else {
      assert ms + [temp] + [e] == (ms + [temp]) + [e];
      WithoutIdAppend(ms + [temp], [e], temp.id);
      RollbackUndoesSend(ms, temp);
      assert WithoutId([e], temp.id) == [e];
    }
  }

  /** A server id holding a `-` (as a UUID does) is never a temporary id,
      which is all decimal digits. */
  lemma ServerIdIsNotTempId(clock: nat, serverId: string)
    requires '-' in serverId
    ensures serverId != Decimal(clock)
  {
    var k :| 0 <= k < |serverId| && serverId[k] == '-';
    if k < |Decimal(clock)| {
      assert Decimal(clock)[k] != serverId[k];
    }
  }

  /** When the server's id differs from the temporary id (ServerIdIsNotTempId
      gives this for a UUID), a successful send followed by its own realtime
      echo leaves the list with two messages of that content. */
  lemma EchoAfterSendDuplicates(ms: seq<Message>, temp: Message, echo: Message)
    requires echo.id != temp.id && !HasId(ms, echo.id)
    requires echo.content == temp.content
    ensures Delivered(ms + [temp], echo) == ms + [temp, echo]
    ensures CountContent(Delivered(ms + [temp], echo), temp.content)
         == CountContent(ms, temp.content) + 2
  {
    var r := ms + [temp];
    assert !HasId(r, echo.id) by {
      forall k | 0 <= k < |r| ensures r[k].id != echo.id {
        if k < |ms| {
          assert r[k] == ms[k];
        }
      }
    }
    assert r + [echo] == ms + [temp, echo];
    assert (ms + [temp, echo])[..|ms| + 1] == r;
    assert r[..|ms|] == ms;
  }

  /** The replica of `useMessages`: the bound user and couple, the messages
      and the `loading` flag. */
  class MessageStore {
    var userId: Option<string>
    var coupleId: Option<string>
    var messages: seq<Message>
    var loading: bool

    constructor (userId: Option<string>, coupleId: Option<string>)
      ensures this.userId == userId && this.coupleId == coupleId
      ensures messages == [] && loading
    {
      this.userId := userId;
      this.coupleId := coupleId;
      messages := [];
      loading := true;
    }

    /** The session changed. The list is kept; `reload` says whether the
        fetch effect runs again (its dependency, the couple id, changed). */
    method SetScope(userId: Option<string>, coupleId: Option<string>) returns (reload: bool)
      modifies this
      ensures this.userId == userId && this.coupleId == coupleId
      ensures messages == old(messages) && loading == old(loading)
      ensures reload == (coupleId != old(this.coupleId))
    {
      reload := coupleId != this.coupleId;
      this.userId := userId;
      this.coupleId := coupleId;
    }

    /** `fetchMessages`: without a couple the list is emptied; otherwise a
        successful query replaces it and a failed one leaves it; `loading`
        ends false in every case. */
    method FetchMessages(result: Fetch<Message>)
      modifies this
      ensures userId == old(userId) && coupleId == old(coupleId)
      ensures !loading
      ensures !Given(coupleId) ==> messages == []
      ensures Given(coupleId) && result.Rows? ==> messages == result.rows
      ensures Given(coupleId) && result.FetchError? ==> messages == old(messages)
    {
      if !Given(coupleId) {
        loading := false;
        messages := [];
        return;
      }
      if result.Rows? {
        messages := result.rows;
      }
      loading := false;
    }

    /** `sendMessage` up to the insert it awaits. Without a user or a couple it
        returns false (here: no pending send) and changes nothing. Otherwise it
        appends one message under the temporary id `Date.now().toString()`
        (`clock` is the clock reading, `clockIso` its ISO rendering) and
        issues the insert. */
    method SendMessage(content: string, messageType: Option<string>, clock: nat, clockIso: string)
      returns (pending: Option<PendingSend>)
      modifies this
      ensures userId == old(userId) && coupleId == old(coupleId) && loading == old(loading)
      ensures !(Given(userId) && Given(coupleId)) ==> pending.None? && messages == old(messages)
      ensures Given(userId) && Given(coupleId) ==>
        && pending == Some(PendingSend(Decimal(clock),
             MessageRow(coupleId.value, userId.value, content, TypeOrText(messageType))))
        && messages == old(messages) + [Message(Decimal(clock), coupleId.value, userId.value,
             content, TypeOrText(messageType), clockIso)]
    {
      if !(Given(userId) && Given(coupleId)) {
        return None;
      }
      var tempId := Decimal(clock);
      var kind := TypeOrText(messageType);
      var optimistic := Message(tempId, coupleId.value, userId.value, content, kind, clockIso);
      messages := messages + [optimistic];
      pending := Some(PendingSend(tempId, MessageRow(coupleId.value, userId.value, content, kind)));
    }

    /** The rest of `sendMessage` once the insert answers: on failure every
        entry with the temporary id is removed and false returned; on success
        the temporary message stays as it is and true is returned. */
    method FinishSend(p: PendingSend, insert: Mutation) returns (ok: bool)
      modifies this
      ensures userId == old(userId) && coupleId == old(coupleId) && loading == old(loading)
      ensures ok == insert.Ack?
      ensures ok ==> messages == old(messages)
      ensures !ok ==> messages == WithoutId(old(messages), p.tempId)
    {
      if insert.MutateError? {
        messages := WithoutId(messages, p.tempId);
        return false;
      }
      return true;
    }

    /** The realtime callback: a change the channel receives is merged with
        `Delivered`; nothing else reaches it. */
    method OnChange(c: Change, row: Message)
      requires c.table == "messages" && c.coupleId == row.coupleId
      modifies this
      ensures userId == old(userId) && coupleId == old(coupleId) && loading == old(loading)
      ensures Receives(Channel(coupleId), c) ==> messages == Delivered(old(messages), row)
      ensures !Receives(Channel(coupleId), c) ==> messages == old(messages)
    {
      if Receives(Channel(coupleId), c) {
        messages := Delivered(messages, row);
      }
    }
  }
}
