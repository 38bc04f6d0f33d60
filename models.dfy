/**
 * The ledger: chats and their money operations, the aggregates over them,
 * the field validation every write of an operation runs first, and the
 * store itself as a class whose methods are the only writes.
 */
module Models {
  import opened Wrappers

  const INCOME: string := "income"
  const EXPENSE: string := "expense"

  /** The smallest amount, 0.01, in cents. */
  const MIN_AMOUNT: int := 1
  /** At most 10 digits with 2 after the point: every amount is below 10^8 units, i.e. 10^10 cents. */
  const AMOUNT_LIMIT: int := 10_000_000_000
  const MAX_NOTE_LENGTH: nat := 255

  /** One money movement. The amount is unsigned; `kind` gives the direction. */
  datatype Operation = Operation(id: nat, chat: int, amount: int, kind: string, note: string, createdAt: int)

  /** A closed time window, both ends included. */
  datatype Span = Span(start: int, end: int)

  /** The field checks of `full_clean` that can fail for an operation. */
  datatype FieldError = UnknownChat | AmountBelowMinimum | AmountTooManyDigits | InvalidChoice | NoteTooLong

  /** What the ledger's operations raise. */
  datatype Failure = ValueError(message: string) | ValidationError(fields: seq<FieldError>) | IntegrityError

  predicate IsKind(kind: string) {
    kind == INCOME || kind == EXPENSE
  }

  /** The constraints of the operation fields, stated outright. */
  predicate IsClean(chatExists: bool, amount: int, kind: string, note: string) {
    chatExists && MIN_AMOUNT <= amount < AMOUNT_LIMIT && IsKind(kind) && |note| <= MAX_NOTE_LENGTH
  }

  /** `full_clean`: every failing field check, in the order the fields are declared. */
  function FieldErrors(chatExists: bool, amount: int, kind: string, note: string): (errs: seq<FieldError>)
    ensures errs == [] <==> IsClean(chatExists, amount, kind, note)
    ensures AmountBelowMinimum in errs <==> amount < MIN_AMOUNT
    ensures NoteTooLong in errs <==> |note| > MAX_NOTE_LENGTH
  {
    (if chatExists then [] else [UnknownChat])
    + (if amount < MIN_AMOUNT then [AmountBelowMinimum] else [])
    + (if amount >= AMOUNT_LIMIT then [AmountTooManyDigits] else [])
    + (if IsKind(kind) then [] else [InvalidChoice])
    + (if |note| <= MAX_NOTE_LENGTH then [] else [NoteTooLong])
  }

  /** What a row adds to the sum of `kind` for `chat`. */
  function Share(r: Operation, chat: int, kind: string): int {
    if r.chat == chat && r.kind == kind then r.amount else 0
  }

  /** The sum of the amounts of the rows of `chat` with type `kind`; 0 when there are none. */
  function Total(rows: seq<Operation>, chat: int, kind: string): int
    decreases |rows|
  {
    if rows == [] then 0 else Total(rows[..|rows| - 1], chat, kind) + Share(rows[|rows| - 1], chat, kind)
  }

  /** `get_sum_by_type`: only the two operation types are accepted. */
  function GetSumByType(rows: seq<Operation>, chat: int, kind: string): (r: Result<int, Failure>)
    ensures r.Err? <==> !IsKind(kind)
    ensures r.Err? ==> r.error == ValueError("Invalid operation type")
    ensures r.Ok? ==> r.value == Total(rows, chat, kind)
  {
    if kind != INCOME && kind != EXPENSE then Err(ValueError("Invalid operation type"))
    else Ok(Total(rows, chat, kind))
  }

  /** `get_balance`: income minus expense of one chat. */
  function GetBalance(rows: seq<Operation>, chat: int): int {
    var expense := GetSumByType(rows, chat, EXPENSE);
    var income := GetSumByType(rows, chat, INCOME);
    income.value - expense.value
  }

  /** What a row does to its chat's balance. */
  function Effect(r: Operation, chat: int): int {
    Share(r, chat, INCOME) - Share(r, chat, EXPENSE)
  }

  /** Sums split over a concatenation. */
  lemma {:induction false} TotalAppend(a: seq<Operation>, b: seq<Operation>, chat: int, kind: string)
    ensures Total(a + b, chat, kind) == Total(a, chat, kind) + Total(b, chat, kind)
    decreases |b|
  {
    if b == [] {
      assert a + b == a;
    } else {
      var b' := b[..|b| - 1];
      TotalAppend(a, b', chat, kind);
      assert (a + b)[..|a + b| - 1] == a + b';
      assert (a + b)[|a + b| - 1] == b[|b| - 1];
    }
  }

  /** The rows of `chat`, in ledger order. */
  function OfChat(rows: seq<Operation>, chat: int): (r: seq<Operation>)
    ensures forall x :: x in r <==> x in rows && x.chat == chat
    decreases |rows|
  {
    if rows == [] then []
    else
      var last := rows[|rows| - 1];
      OfChat(rows[..|rows| - 1], chat) + (if last.chat == chat then [last] else [])
  }

  /** Rows of other chats never contribute to a chat's sums. */
  lemma {:induction false} TotalOnlyOwnChat(rows: seq<Operation>, chat: int, kind: string)
    ensures Total(rows, chat, kind) == Total(OfChat(rows, chat), chat, kind)
    decreases |rows|
  {
    if rows != [] {
      var init, last := rows[..|rows| - 1], rows[|rows| - 1];
      TotalOnlyOwnChat(init, chat, kind);
      TotalAppend(OfChat(init, chat), if last.chat == chat then [last] else [], chat, kind);
      assert Total([last], chat, kind) == Share(last, chat, kind) by {
        assert [last][..0] == [];
      }
    }
  }

  /** With valid amounts, a sum is never negative, and it is 0 exactly when no row has that chat and type. */
  lemma {:induction false} TotalZeroIffNone(rows: seq<Operation>, chat: int, kind: string)
    requires forall i :: 0 <= i < |rows| ==> rows[i].amount >= MIN_AMOUNT
    ensures Total(rows, chat, kind) >= 0
    ensures Total(rows, chat, kind) == 0 <==> forall i :: 0 <= i < |rows| ==> !(rows[i].chat == chat && rows[i].kind == kind)
    decreases |rows|
  {
    if rows != [] {
      var init := rows[..|rows| - 1];
      TotalZeroIffNone(init, chat, kind);
      assert forall i :: 0 <= i < |init| ==> init[i] == rows[i];
    }
  }

  /** Appending a row changes only its own chat's balance, by its signed amount. */
  lemma BalanceAppend(rows: seq<Operation>, r: Operation, chat: int)
    ensures GetBalance(rows + [r], chat) == GetBalance(rows, chat) + Effect(r, chat)
  {
    assert (rows + [r])[..|rows|] == rows;
  }

  /** Taking out the row at `k` takes out its effect on the balance. */
  lemma BalanceRemove(rows: seq<Operation>, k: nat, chat: int)
    requires k < |rows|
    ensures GetBalance(rows[..k] + rows[k + 1..], chat) == GetBalance(rows, chat) - Effect(rows[k], chat)
  {
    forall kind | IsKind(kind)
      ensures Total(rows[..k] + rows[k + 1..], chat, kind) == Total(rows, chat, kind) - Share(rows[k], chat, kind)
    {
      assert rows == rows[..k] + [rows[k]] + rows[k + 1..];
      TotalAppend(rows[..k] + [rows[k]], rows[k + 1..], chat, kind);
      TotalAppend(rows[..k], [rows[k]], chat, kind);
      TotalAppend(rows[..k], rows[k + 1..], chat, kind);
      assert Total([rows[k]], chat, kind) == Share(rows[k], chat, kind) by {
        assert [rows[k]][..0] == [];
      }
    }
  }

  /** Taking out the row at `k` keeps every other row. */
  lemma RemoveKeepsOthers(rows: seq<Operation>, k: nat)
    requires k < |rows|
    ensures forall x :: x in rows && x != rows[k] ==> x in rows[..k] + rows[k + 1..]
  {
    var rest := rows[..k] + rows[k + 1..];
    forall x | x in rows && x != rows[k] ensures x in rest {
      var i :| 0 <= i < |rows| && rows[i] == x;
      if i < k {
        assert rest[i] == x;
      } else {
        assert rest[i - 1] == x;
      }
    }
  }

  /** Overwriting the row at `k` swaps its effect on the balance for the new row's. */
  lemma BalanceReplace(rows: seq<Operation>, k: nat, r: Operation, chat: int)
    requires k < |rows|
    ensures GetBalance(rows[k := r], chat) == GetBalance(rows, chat) - Effect(rows[k], chat) + Effect(r, chat)
  {
    var rest := rows[..k] + rows[k + 1..];
    BalanceRemove(rows, k, chat);
    BalanceRemove(rows[k := r], k, chat);
    assert rows[k := r][..k] + rows[k := r][k + 1..] == rest;
  }

  /** Income 100.00 then expense 30.00 on a fresh chat 42 leaves a balance of 70.00. */
  lemma BalanceExample()
    ensures GetBalance([Operation(1, 42, 10000, INCOME, "", 0), Operation(2, 42, 3000, EXPENSE, "", 0)], 42) == 7000
  {
    var a := Operation(1, 42, 10000, INCOME, "", 0);
    var b := Operation(2, 42, 3000, EXPENSE, "", 0);
    BalanceAppend([], a, 42);
    BalanceAppend([a], b, 42);
    assert [] + [a] == [a];
    assert [a] + [b] == [a, b];
  }

  /** `filter(id=id, chat_id=chat).first()`: the index of the row with that id in that chat. */
  function FindRow(rows: seq<Operation>, id: int, chat: int): (r: Option<nat>)
    ensures r.Some? ==> r.value < |rows| && rows[r.value].id == id && rows[r.value].chat == chat
    ensures r.Some? ==> forall i :: 0 <= i < r.value ==> !(rows[i].id == id && rows[i].chat == chat)
    ensures r.None? ==> forall i :: 0 <= i < |rows| ==> !(rows[i].id == id && rows[i].chat == chat)
    decreases |rows|
  {
    if rows == [] then None
    else if rows[0].id == id && rows[0].chat == chat then Some(0)
    else
      match FindRow(rows[1..], id, chat)
      case None => None
      case Some(i) => Some(i + 1)
  }

  predicate InSpan(r: Operation, span: Span) {
    span.start <= r.createdAt <= span.end
  }

  /** The rows of `chat` created inside `span`, in ledger order. */
  function RowsInSpan(rows: seq<Operation>, chat: int, span: Span): (r: seq<Operation>)
    ensures |r| <= |rows|
    ensures forall x :: x in r <==> x in rows && x.chat == chat && InSpan(x, span)
    decreases |rows|
  {
    if rows == [] then []
    else
      var last := rows[|rows| - 1];
      RowsInSpan(rows[..|rows| - 1], chat, span) + (if last.chat == chat && InSpan(last, span) then [last] else [])
  }

  /** Ids strictly increase along the sequence: creation order. */
  predicate IdsIncrease(rows: seq<Operation>) {
    forall i, j :: 0 <= i < j < |rows| ==> rows[i].id < rows[j].id
  }

  /** A window query keeps the ledger's creation order. */
  lemma {:induction false} RowsInSpanKeepsOrder(rows: seq<Operation>, chat: int, span: Span)
    requires IdsIncrease(rows)
    ensures IdsIncrease(RowsInSpan(rows, chat, span))
    decreases |rows|
  {
    if rows != [] {
      var init, last := rows[..|rows| - 1], rows[|rows| - 1];
      var before := RowsInSpan(init, chat, span);
      assert IdsIncrease(init);
      RowsInSpanKeepsOrder(init, chat, span);
      forall x | x in before ensures x.id < last.id {
        var i :| 0 <= i < |init| && init[i] == x;
      }
    }
  }

  /**
   * `get_transactions_by_interval`: the interval name is resolved to a time
   * window by `resolve` (which fails for an unknown name), then the chat's rows
   * in that window are returned.
   */
  function TransactionsByInterval(rows: seq<Operation>, chat: int, interval: string,
                                  resolve: string -> Result<Span, string>): (r: Result<seq<Operation>, string>)
    ensures resolve(interval).Err? <==> r.Err?
    ensures r.Err? ==> r.error == resolve(interval).error
    ensures r.Ok? ==> forall x :: x in r.value <==> x in rows && x.chat == chat && InSpan(x, resolve(interval).value)
  {
    match resolve(interval)
    case Err(e) => Err(e)
    case Ok(span) => Ok(RowsInSpan(rows, chat, span))
  }

  /**
   * The database: chats by id, the operation table in creation order, and
   * the next id the table will hand out.
   */
  class Store {
    var chats: map<int, string>
    var rows: seq<Operation>
    var nextId: nat

    /** Every stored row passed validation, belongs to a known chat, and ids increase with creation. */
    ghost predicate Valid()
      reads this
    {
      && nextId >= 1
      && (forall c :: c in chats ==> c >= 0)
      && (forall i :: 0 <= i < |rows| ==> 1 <= rows[i].id < nextId)
      && (forall i :: 0 <= i < |rows| ==> IsClean(rows[i].chat in chats, rows[i].amount, rows[i].kind, rows[i].note))
      && IdsIncrease(rows)
    }

    constructor ()
      ensures Valid()
      ensures chats == map[] && rows == [] && nextId == 1
    {
      chats, rows, nextId := map[], [], 1;
    }

    /**
     * `Chat.objects.get_or_create(chat_id=chat, username=username)`: the lookup
     * matches both fields, so a known chat under another name makes the insert
     * clash with the primary key; a negative id breaks the column's check.
     */
    method GetOrCreateChat(chat: int, username: string) returns (r: Outcome<Failure>)
      requires Valid()
      modifies this
      ensures Valid() && rows == old(rows) && nextId == old(nextId)
      ensures chat in old(chats) && old(chats)[chat] == username ==> r == Pass && chats == old(chats)
      ensures chat in old(chats) && old(chats)[chat] != username ==> r == Fail(IntegrityError) && chats == old(chats)
      ensures chat !in old(chats) && chat < 0 ==> r == Fail(IntegrityError) && chats == old(chats)
      ensures chat !in old(chats) && chat >= 0 ==> r == Pass && chats == old(chats)[chat := username]
    {
      if chat in chats && chats[chat] == username {
        return Pass;
      }
      if chat in chats || chat < 0 {
        return Fail(IntegrityError);
      }
      chats := chats[chat := username];
      r := Pass;
    }

    /** `Operation.objects.create(...)`: validate, then insert with a fresh id and the creation time. */
    method Create(chat: int, amount: int, kind: string, note: string, now: int) returns (r: Result<Operation, Failure>)
      requires Valid()
      modifies this
      ensures Valid() && chats == old(chats)
      ensures var errs := FieldErrors(chat in chats, amount, kind, note);
        if errs == [] then
          && r == Ok(Operation(old(nextId), chat, amount, kind, note, now))
          && rows == old(rows) + [r.value] && nextId == old(nextId) + 1
        else
          r == Err(ValidationError(errs)) && rows == old(rows) && nextId == old(nextId)
    {
      var errs := FieldErrors(chat in chats, amount, kind, note);
      if errs != [] {
        return Err(ValidationError(errs));
      }
      var t := Operation(nextId, chat, amount, kind, note, now);
      rows := rows + [t];
      nextId := nextId + 1;
      r := Ok(t);
    }

    /** `save()` of the instance loaded from row `k`: validate, then overwrite that row. */
    method Save(k: nat, t: Operation) returns (r: Outcome<Failure>)
      requires Valid() && k < |rows| && t.id == rows[k].id
      modifies this
      ensures Valid() && chats == old(chats) && nextId == old(nextId)
      ensures var errs := FieldErrors(t.chat in chats, t.amount, t.kind, t.note);
        if errs == [] then r == Pass && rows == old(rows)[k := t]
        else r == Fail(ValidationError(errs)) && rows == old(rows)
    {
      var errs := FieldErrors(t.chat in chats, t.amount, t.kind, t.note);
      if errs != [] {
        return Fail(ValidationError(errs));
      }
      rows := rows[k := t];
      r := Pass;
    }

    /** `delete()` of the instance loaded from row `k`. */
    method Delete(k: nat)
      requires Valid() && k < |rows|
      modifies this
      ensures Valid() && chats == old(chats) && nextId == old(nextId)
      ensures rows == old(rows)[..k] + old(rows)[k + 1..]
    {
      rows := rows[..k] + rows[k + 1..];
      assert forall i :: 0 <= i < |rows| ==> rows[i] == old(rows)[if i < k then i else i + 1];
    }
  }
}
