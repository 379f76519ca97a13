/**
 * `MessageService` (src/services/message_service.py): turns the checkpoint records of
 * one thread into user-visible messages.
 *
 * `get_user_messages` first drops the records whose `metadata.writes` is missing or
 * None, then decodes each remaining record with `_parse_message_row`. The decoder
 * knows two kinds of write: `__start__` (a user turn) and `query_or_respond` (an AI
 * turn); every other record becomes a message with the fallback content and type.
 */
module MessageService {
  import opened Wrappers
  import opened PyValues
  import opened MessageRepository

  /** `src.models.message.Message`; `kind` is the model's `type` field. */
  datatype Message = Message(id: string, threadId: string, content: string, kind: string, step: int)

  const NoContent: string := "No content available"
  const UnknownType: string := "unknown"
  const StartKey: string := "__start__"
  const AnswerKey: string := "query_or_respond"

  /** The raw content and type found in the writes; `Null` stands for Python's None (unset). */
  datatype Turn = Turn(content: Value, role: Value)

  const Unset: Turn := Turn(Null, Null)

  /** The condition of the filter in `get_user_messages`, for a record whose metadata is a dict. */
  predicate HasWrites(row: CheckpointRecord) {
    row.metadata.Obj? && "writes" in row.metadata.fields && row.metadata.fields["writes"] != Null
  }

  /**
   * The `if/elif` over the keys of `writes`: `__start__` is looked at first, so it wins
   * when both keys are present.
   */
  function ExtractTurn(writes: Value): (r: Result<Turn, PyError>)
    ensures !writes.Obj? ==> r == Ok(Unset)
    ensures writes.Obj? && StartKey !in writes.fields && AnswerKey !in writes.fields ==> r == Ok(Unset)
  {
    match writes
    case Obj(w) =>
      if StartKey in w then
        var messages :- Get(w[StartKey], "messages", Arr([]));
        if messages.Arr? then
          match FirstOr(messages.items, EmptyDict)
          case Obj(message) => Ok(Turn(Lookup(message, "content", Null), Lookup(message, "role", Null)))
          case _ => Err(AttributeError)
        else Ok(Unset)
      else if AnswerKey in w then
        var messages :- Get(w[AnswerKey], "messages", Arr([]));
        if messages.Arr? then
          var message := FirstOr(messages.items, EmptyDict);
          var kwargs :- Get(message, "kwargs", EmptyDict);
          match kwargs
          case Obj(kw) => Ok(Turn(Lookup(kw, "content", Null), Lookup(kw, "type", Null)))
          case _ => Err(AttributeError)
        else Ok(Unset)
      else Ok(Unset)
    case _ => Ok(Unset)
  }

  /** `_parse_message_row`: decode one record, applying the fallbacks, then validate as pydantic does. */
  function ParseRow(row: CheckpointRecord): (r: Result<Message, PyError>)
    ensures !row.metadata.Obj? ==> r == Err(AttributeError)
    ensures r.Ok? ==> r.value.id == row.id && r.value.threadId == row.threadId
    ensures r.Ok? ==> "step" in row.metadata.fields && row.metadata.fields["step"] == Num(r.value.step)
    ensures r.Ok? ==> r.value.content != [] && r.value.kind != []
  {
    match row.metadata
    case Obj(metadata) =>
      var writes := Or(Lookup(metadata, "writes", Null), EmptyDict);
      var step := Lookup(metadata, "step", Null);
      var turn :- ExtractTurn(writes);
      var content := Or(turn.content, Str(NoContent));
      var kind := Or(turn.role, Str(UnknownType));
      if content.Str? && kind.Str? && step.Num? then
        Ok(Message(row.id, row.threadId, content.s, kind.s, step.n))
      else
        Err(ValidationError)
    case _ => Err(AttributeError)
  }

  /** The filter comprehension of `get_user_messages`; it raises on the first record whose metadata is not a dict. */
  function KeepRows(rows: seq<CheckpointRecord>): (r: Result<seq<CheckpointRecord>, PyError>)
    ensures r.Ok? <==> forall i | 0 <= i < |rows| :: rows[i].metadata.Obj?
    ensures r.Err? ==> r.error == AttributeError
    ensures r.Ok? ==> |r.value| <= |rows|
    ensures r.Ok? ==> forall x | x in r.value :: x in rows && HasWrites(x)
    ensures r.Ok? ==> forall x | x in rows && HasWrites(x) :: x in r.value
  {
    if rows == [] then Ok([])
    else
      match rows[0].metadata
      case Obj(metadata) =>
        var rest := KeepRows(rows[1..]);
        assert forall i | 1 <= i < |rows| :: rows[i] == rows[1..][i - 1];
        if rest.Err? then rest
        else if Lookup(metadata, "writes", Null) != Null then Ok([rows[0]] + rest.value)
        else rest
      case _ => Err(AttributeError)
  }

  /** The map comprehension of `get_user_messages`; it raises the first error of `_parse_message_row`. */
  function ParseRows(rows: seq<CheckpointRecord>): (r: Result<seq<Message>, PyError>)
    ensures r.Ok? <==> forall i | 0 <= i < |rows| :: ParseRow(rows[i]).Ok?
    ensures r.Ok? ==> |r.value| == |rows|
    ensures r.Ok? ==> forall i | 0 <= i < |rows| :: r.value[i] == ParseRow(rows[i]).value
  {
    if rows == [] then Ok([])
    else
      var first :- ParseRow(rows[0]);
      var rest :- ParseRows(rows[1..]);
      assert forall i | 1 <= i < |rows| :: rows[i] == rows[1..][i - 1];
      Ok([first] + rest)
  }

  /** `get_user_messages` applied to the records the repository returned. */
  function GetUserMessages(rows: seq<CheckpointRecord>): (r: Result<seq<Message>, PyError>)
    ensures KeepRows(rows).Err? ==> r == Err(KeepRows(rows).error)
    ensures KeepRows(rows).Ok? ==>
      (r.Ok? <==> forall i | 0 <= i < |KeepRows(rows).value| :: ParseRow(KeepRows(rows).value[i]).Ok?)
    ensures r.Ok? ==> KeepRows(rows).Ok? && |r.value| == |KeepRows(rows).value|
    ensures r.Ok? ==> forall i | 0 <= i < |r.value| :: r.value[i] == ParseRow(KeepRows(rows).value[i]).value
  {
    match KeepRows(rows)
    case Err(e) => Err(e)
    case Ok(kept) =>
      assert KeepRows(rows).value == kept;
      var r := ParseRows(kept);
      assert r.Ok? <==> forall i | 0 <= i < |kept| :: ParseRow(kept[i]).Ok?;
      r
  }

  /** The filter preserves the order of the records it keeps: it distributes over concatenation. */
  lemma {:induction false} KeepRowsDistributes(a: seq<CheckpointRecord>, b: seq<CheckpointRecord>)
    requires KeepRows(a).Ok? && KeepRows(b).Ok?
    ensures KeepRows(a + b) == Ok(KeepRows(a).value + KeepRows(b).value)
  {
    if a == [] {
      assert a + b == b;
      assert KeepRows(a).value + KeepRows(b).value == KeepRows(b).value;
    } else {
      assert (a + b)[0] == a[0];
      assert (a + b)[1..] == a[1..] + b;
      assert forall i | 1 <= i < |a| :: a[i] == a[1..][i - 1];
      assert KeepRows(a[1..]).Ok?;
      KeepRowsDistributes(a[1..], b);
      var x, y := KeepRows(a[1..]).value, KeepRows(b).value;
      assert [a[0]] + (x + y) == ([a[0]] + x) + y;
    }
  }

  /** A single record is kept exactly when its `writes` is present and not None. */
  lemma KeepOne(row: CheckpointRecord)
    requires row.metadata.Obj?
    ensures KeepRows([row]) == Ok(if HasWrites(row) then [row] else [])
  {
    assert [row][1..] == [];
    assert KeepRows([row][1..]) == Ok([]);
    assert [row] + [] == [row];
  }

  /**
   * Every kept record yields exactly one message, in record order, carrying the
   * record's id and thread id; records without writes yield none.
   */
  lemma OneMessagePerKeptRow(rows: seq<CheckpointRecord>)
    requires GetUserMessages(rows).Ok?
    ensures KeepRows(rows).Ok?
    ensures var kept, msgs := KeepRows(rows).value, GetUserMessages(rows).value;
      && |msgs| == |kept|
      && forall i | 0 <= i < |kept| ::
        msgs[i] == ParseRow(kept[i]).value && msgs[i].id == kept[i].id && msgs[i].threadId == kept[i].threadId
  {
  }

  /** A thread whose records carry no writes reads as an empty list. */
  lemma {:induction false} NoWritesNoMessages(rows: seq<CheckpointRecord>)
    requires forall i | 0 <= i < |rows| :: rows[i].metadata.Obj? && !HasWrites(rows[i])
    ensures GetUserMessages(rows) == Ok([])
  {
    if rows != [] {
      NoWritesNoMessages(rows[1..]);
      assert KeepRows(rows) == KeepRows(rows[1..]);
    }
  }

  /** `__start__` takes precedence: the other keys of `writes` play no part. */
  lemma StartTakesPrecedence(w: map<string, Value>)
    requires StartKey in w
    ensures ExtractTurn(Obj(w)) == ExtractTurn(Obj(map[StartKey := w[StartKey]]))
  {
  }

  /** A `__start__` write decodes from the first message's `content` and `role`. */
  lemma StartTurn(w: map<string, Value>, s: map<string, Value>, items: seq<Value>, m: map<string, Value>)
    requires StartKey in w && w[StartKey] == Obj(s)
    requires "messages" in s && s["messages"] == Arr(items) && items != [] && items[0] == Obj(m)
    ensures ExtractTurn(Obj(w)) == Ok(Turn(
      if "content" in m then m["content"] else Null,
      if "role" in m then m["role"] else Null))
  {
  }

  /** A `query_or_respond` write (with no `__start__`) decodes from the first message's `kwargs.content` and `kwargs.type`. */
  lemma AnswerTurn(w: map<string, Value>, q: map<string, Value>, items: seq<Value>, m: map<string, Value>, kw: map<string, Value>)
    requires StartKey !in w && AnswerKey in w && w[AnswerKey] == Obj(q)
    requires "messages" in q && q["messages"] == Arr(items) && items != [] && items[0] == Obj(m)
    requires "kwargs" in m && m["kwargs"] == Obj(kw)
    ensures ExtractTurn(Obj(w)) == Ok(Turn(
      if "content" in kw then kw["content"] else Null,
      if "type" in kw then kw["type"] else Null))
  {
  }

  /** An empty or non-list `messages` leaves content and type unset. */
  lemma NoMessagesLeavesUnset(w: map<string, Value>, key: string, s: map<string, Value>)
    requires key == StartKey || (key == AnswerKey && StartKey !in w)
    requires key in w && w[key] == Obj(s)
    requires "messages" in s && (s["messages"] == Arr([]) || !s["messages"].Arr?)
    ensures ExtractTurn(Obj(w)) == Ok(Unset)
  {
  }

  /**
   * A decoded record whose content and type are unset or falsy gets the fallbacks
   * "No content available" and "unknown"; a truthy string is kept as it is.
   */
  lemma {:induction false} Fallbacks(row: CheckpointRecord, turn: Turn, n: int)
    requires row.metadata.Obj? && "step" in row.metadata.fields && row.metadata.fields["step"] == Num(n)
    requires ExtractTurn(Or(if "writes" in row.metadata.fields then row.metadata.fields["writes"] else Null, EmptyDict)) == Ok(turn)
    requires !Truthy(turn.content) || turn.content.Str?
    requires !Truthy(turn.role) || turn.role.Str?
    ensures ParseRow(row) == Ok(Message(row.id, row.threadId,
      if Truthy(turn.content) then turn.content.s else NoContent,
      if Truthy(turn.role) then turn.role.s else UnknownType, n))
  {
  }

  /** Content that is truthy but not a string fails pydantic's `str` check. */
  lemma NonStringContentRejected(row: CheckpointRecord, turn: Turn)
    requires row.metadata.Obj?
    requires ExtractTurn(Or(if "writes" in row.metadata.fields then row.metadata.fields["writes"] else Null, EmptyDict)) == Ok(turn)
    requires Truthy(turn.content) && !turn.content.Str?
    ensures ParseRow(row) == Err(ValidationError)
  {
  }

  /** Once a thread has been purged, reading it back gives no messages. */
  lemma {:induction false} PurgedThreadHasNoMessages(t: Tables, u: string)
    ensures GetUserMessages(ToRecords(Select(PurgeFirst(t, u, |PurgeOrder|).checkpoints, u))) == Ok([])
  {
    CompletePurgeEmptiesThread(t, u);
  }
}
