/**
 * The chat command handlers, run against the store. Each returns what the
 * bot would reply, or the exception that escapes the handler (the reply is
 * then never sent); the store is left as the handler leaves it.
 */
module Commands {
  import opened Wrappers
  import opened Text
  import opened Models
  import opened Constants
  import Numbers
  import Utils

  datatype Outcome = Reply(text: string) | Raised(failure: Failure)

  /** Python truthiness of an optional number: `None` and 0 are false. */
  predicate Truthy(n: Option<int>) {
    n.Some? && n.value != 0
  }

  /** The sign shown for an operation type; it is never stored. */
  function Sign(kind: string): string {
    if kind == INCOME then "+" else "-"
  }

  /** Whether `get_or_create` on this chat raises: the chat is known under another name, or its id is negative. */
  predicate ChatClash(chats: map<int, string>, chat: int, username: string) {
    if chat in chats then chats[chat] != username else chat < 0
  }

  function TotalText(kind: string, total: string): string {
    "Total " + kind + ": " + Sign(kind) + total
  }

  function AddedText(kind: string, amount: string): string {
    Capitalize(kind) + " added: " + Sign(kind) + amount
  }

  function BalanceText(balance: int): string {
    "Total balance: " + FormatCents(balance)
  }

  /** The note of a new operation: every token after the amount. */
  function NoteOf(args: seq<string>): string {
    if |args| > 1 then Join(" ", args[1..]) else ""
  }

  /** The reply names the type as "Income" or "Expense". */
  lemma CapitalizedKinds()
    ensures Capitalize(INCOME) == "Income" && Capitalize(EXPENSE) == "Expense"
  {
    assert Capitalize(INCOME) == [Upper('i')] + "ncome";
    assert Capitalize(EXPENSE) == [Upper('e')] + "xpense";
  }

  /** The replies of `income`, spelled out. */
  lemma IncomeTexts(x: string)
    ensures TotalText(INCOME, x) == "Total income: +" + x
    ensures AddedText(INCOME, x) == "Income added: +" + x
  {
    CapitalizedKinds();
  }

  /** The replies of `expense`, spelled out. */
  lemma ExpenseTexts(x: string)
    ensures TotalText(EXPENSE, x) == "Total expense: -" + x
    ensures AddedText(EXPENSE, x) == "Expense added: -" + x
  {
    CapitalizedKinds();
    assert Sign(EXPENSE) == "-" by { assert EXPENSE[0] != INCOME[0]; }
  }

  /** A signed amount as the replies show it reads back as the signed value: the text loses nothing. */
  lemma SignedAmountReadsBack(kind: string, amount: int)
    requires amount >= 0
    ensures Numbers.ParseCents(Sign(kind) + FormatCents(amount)) == Some(if kind == INCOME then amount else -amount)
  {
    var u := FormatUnsigned(amount);
    Numbers.UnsignedText(amount);
    Numbers.SignedReadsBack(u, amount);
    assert FormatCents(amount) == u;
  }

  /**
   * `handle_income_or_expense`. With no tokens it reports the running total
   * of that type and creates nothing. Otherwise the first token is the amount
   * and the rest the note; the chat is fetched or created, then the operation
   * is validated and stored.
   */
  method HandleIncomeOrExpense(db: Store, chat: int, username: string, kind: string, args: seq<string>, now: int)
    returns (out: Outcome)
    requires db.Valid()
    modifies db
    ensures db.Valid()
    ensures |args| == 0 ==> db.rows == old(db.rows) && db.chats == old(db.chats) && db.nextId == old(db.nextId)
    ensures |args| == 0 && IsKind(kind) ==> out == Reply(TotalText(kind, FormatCents(Total(db.rows, chat, kind))))
    ensures |args| == 0 && !IsKind(kind) ==> out == Raised(ValueError("Invalid operation type"))
    ensures |args| > 0 && Utils.ParseAmount(args[0]).None? ==>
      out == Reply("Incorrect amount") && db.rows == old(db.rows) && db.chats == old(db.chats) && db.nextId == old(db.nextId)
    ensures |args| > 0 && Utils.ParseAmount(args[0]).Some? && ChatClash(old(db.chats), chat, username) ==>
      out == Raised(IntegrityError) && db.rows == old(db.rows) && db.chats == old(db.chats) && db.nextId == old(db.nextId)
    ensures |args| > 0 && Utils.ParseAmount(args[0]).Some? && !ChatClash(old(db.chats), chat, username) ==>
      var amount := Utils.ParseAmount(args[0]).value;
      var note := NoteOf(args);
      && db.chats == old(db.chats)[chat := username]
      && (IsClean(true, amount, kind, note) ==>
            && db.rows == old(db.rows) + [Operation(old(db.nextId), chat, amount, kind, note, now)]
            && db.nextId == old(db.nextId) + 1
            && out == Reply(AddedText(kind, FormatCents(amount))))
      && (!IsClean(true, amount, kind, note) ==>
            && db.rows == old(db.rows) && db.nextId == old(db.nextId)
            && out == Raised(ValidationError(FieldErrors(true, amount, kind, note))))
  {
    if |args| == 0 {
      var total := GetSumByType(db.rows, chat, kind);
      if total.Err? {
        return Raised(total.error);
      }
      return Reply(TotalText(kind, FormatCents(total.value)));
    }
    var amount := Utils.ParseAmount(args[0]);
    if !Truthy(amount) {
      return Reply("Incorrect amount");
    }
    var note := NoteOf(args);
    var got := db.GetOrCreateChat(chat, username);
    if got.Fail? {
      return Raised(got.error);
    }
    var created := db.Create(chat, amount.value, kind, note, now);
    if created.Err? {
      return Raised(created.error);
    }
    out := Reply(AddedText(kind, FormatCents(amount.value)));
  }

  /** `income`: the running income total, or a new income that raises the balance by its amount. */
  method Income(db: Store, chat: int, username: string, args: seq<string>, now: int) returns (out: Outcome)
    requires db.Valid()
    modifies db
    ensures db.Valid()
    ensures |args| == 0 ==>
      && db.rows == old(db.rows) && db.chats == old(db.chats) && db.nextId == old(db.nextId)
      && out == Reply("Total income: +" + FormatCents(Total(db.rows, chat, INCOME)))
    ensures |args| > 0 && Utils.ParseAmount(args[0]).None? ==>
      out == Reply("Incorrect amount") && db.rows == old(db.rows) && db.chats == old(db.chats) && db.nextId == old(db.nextId)
    ensures |args| > 0 && Utils.ParseAmount(args[0]).Some? && ChatClash(old(db.chats), chat, username) ==>
      out == Raised(IntegrityError) && db.rows == old(db.rows) && db.chats == old(db.chats) && db.nextId == old(db.nextId)
    ensures |args| > 0 && Utils.ParseAmount(args[0]).Some? && !ChatClash(old(db.chats), chat, username) ==>
      var amount := Utils.ParseAmount(args[0]).value;
      && db.chats == old(db.chats)[chat := username]
      && (IsClean(true, amount, INCOME, NoteOf(args)) ==>
            && db.rows == old(db.rows) + [Operation(old(db.nextId), chat, amount, INCOME, NoteOf(args), now)]
            && db.nextId == old(db.nextId) + 1
            && GetBalance(db.rows, chat) == GetBalance(old(db.rows), chat) + amount
            && out == Reply("Income added: +" + FormatCents(amount)))
      && (!IsClean(true, amount, INCOME, NoteOf(args)) ==>
            && db.rows == old(db.rows) && db.nextId == old(db.nextId)
            && out == Raised(ValidationError(FieldErrors(true, amount, INCOME, NoteOf(args)))))
  {
    out := HandleIncomeOrExpense(db, chat, username, INCOME, args, now);
    IncomeTexts(FormatCents(Total(db.rows, chat, INCOME)));
    if |args| > 0 && Utils.ParseAmount(args[0]).Some? && !ChatClash(old(db.chats), chat, username) {
      var amount := Utils.ParseAmount(args[0]).value;
      IncomeTexts(FormatCents(amount));
      if IsClean(true, amount, INCOME, NoteOf(args)) {
        BalanceAppend(old(db.rows), Operation(old(db.nextId), chat, amount, INCOME, NoteOf(args), now), chat);
      }
    }
  }

  /** `expense`: the running expense total, or a new expense that lowers the balance by its amount. */
  method Expense(db: Store, chat: int, username: string, args: seq<string>, now: int) returns (out: Outcome)
    requires db.Valid()
    modifies db
    ensures db.Valid()
    ensures |args| == 0 ==>
      && db.rows == old(db.rows) && db.chats == old(db.chats) && db.nextId == old(db.nextId)
      && out == Reply("Total expense: -" + FormatCents(Total(db.rows, chat, EXPENSE)))
    ensures |args| > 0 && Utils.ParseAmount(args[0]).None? ==>
      out == Reply("Incorrect amount") && db.rows == old(db.rows) && db.chats == old(db.chats) && db.nextId == old(db.nextId)
    ensures |args| > 0 && Utils.ParseAmount(args[0]).Some? && ChatClash(old(db.chats), chat, username) ==>
      out == Raised(IntegrityError) && db.rows == old(db.rows) && db.chats == old(db.chats) && db.nextId == old(db.nextId)
    ensures |args| > 0 && Utils.ParseAmount(args[0]).Some? && !ChatClash(old(db.chats), chat, username) ==>
      var amount := Utils.ParseAmount(args[0]).value;
      && db.chats == old(db.chats)[chat := username]
      && (IsClean(true, amount, EXPENSE, NoteOf(args)) ==>
            && db.rows == old(db.rows) + [Operation(old(db.nextId), chat, amount, EXPENSE, NoteOf(args), now)]
            && db.nextId == old(db.nextId) + 1
            && GetBalance(db.rows, chat) == GetBalance(old(db.rows), chat) - amount
            && out == Reply("Expense added: -" + FormatCents(amount)))
      && (!IsClean(true, amount, EXPENSE, NoteOf(args)) ==>
            && db.rows == old(db.rows) && db.nextId == old(db.nextId)
            && out == Raised(ValidationError(FieldErrors(true, amount, EXPENSE, NoteOf(args)))))
  {
    out := HandleIncomeOrExpense(db, chat, username, EXPENSE, args, now);
    ExpenseTexts(FormatCents(Total(db.rows, chat, EXPENSE)));
    if |args| > 0 && Utils.ParseAmount(args[0]).Some? && !ChatClash(old(db.chats), chat, username) {
      var amount := Utils.ParseAmount(args[0]).value;
      ExpenseTexts(FormatCents(amount));
      if IsClean(true, amount, EXPENSE, NoteOf(args)) {
        BalanceAppend(old(db.rows), Operation(old(db.nextId), chat, amount, EXPENSE, NoteOf(args), now), chat);
      }
    }
  }

  /** `balance`: income minus expense of the chat, with two decimals. */
  method Balance(db: Store, chat: int) returns (reply: string)
    ensures reply == BalanceText(Total(db.rows, chat, INCOME) - Total(db.rows, chat, EXPENSE))
  {
    var balance := GetBalance(db.rows, chat);
    reply := BalanceText(balance);
  }

  /**
   * `delete`: exactly one token, a non-zero ID, and a row with that ID in
   * this chat; only that row is removed.
   */
  method Delete(db: Store, chat: int, args: seq<string>) returns (reply: string)
    requires db.Valid()
    modifies db
    ensures db.Valid() && db.chats == old(db.chats) && db.nextId == old(db.nextId)
    ensures |args| != 1 ==>
      reply == "One argument (ID) is required to delete. Please check /help" && db.rows == old(db.rows)
    ensures |args| == 1 && !Truthy(Utils.ParseId(args[0])) ==> reply == "Invalid ID" && db.rows == old(db.rows)
    ensures |args| == 1 && Truthy(Utils.ParseId(args[0])) ==>
      var id := Utils.ParseId(args[0]).value;
      match FindRow(old(db.rows), id, chat)
      case None => reply == "You have no such transaction" && db.rows == old(db.rows)
      case Some(k) =>
        && db.rows == old(db.rows)[..k] + old(db.rows)[k + 1..]
        && reply == "Transaction " + IntToString(id) + " successfully deleted"
        && GetBalance(db.rows, chat) == GetBalance(old(db.rows), chat) - Effect(old(db.rows)[k], chat)
    ensures forall x :: x in old(db.rows) && x.chat != chat ==> x in db.rows
  {
    if |args| != 1 {
      return "One argument (ID) is required to delete. Please check /help";
    }
    var id := Utils.ParseId(args[0]);
    if !Truthy(id) {
      return "Invalid ID";
    }
    var found := FindRow(db.rows, id.value, chat);
    if found.None? {
      return "You have no such transaction";
    }
    var k := found.value;
    ghost var before := db.rows;
    db.Delete(k);
    BalanceRemove(before, k, chat);
    RemoveKeepsOthers(before, k);
    reply := "Transaction " + IntToString(id.value) + " successfully deleted";
  }

  /**
   * The row `update` writes back: an unsigned second token replaces only the
   * note; a signed amount replaces amount and type (always income, since a
   * negative amount never parses), and the note too when a non-empty one follows.
   */
  function Patched(t: Operation, args: seq<string>): (u: Operation)
    requires |args| >= 2
    requires IsSigned(args[1]) ==> Utils.ParseAmount(args[1]).Some?
    ensures u.id == t.id && u.chat == t.chat && u.createdAt == t.createdAt
    ensures !IsSigned(args[1]) ==> u == t.(note := Join(" ", args[1..]))
    ensures IsSigned(args[1]) ==> u.kind == INCOME && u.amount == Utils.ParseAmount(args[1]).value
    ensures IsSigned(args[1]) ==> u.note == (if |args| >= 3 && Join(" ", args[2..]) != "" then Join(" ", args[2..]) else t.note)
  {
    if !IsSigned(args[1]) then t.(note := Join(" ", args[1..]))
    else
      var amount := Utils.ParseAmount(args[1]).value;
      if |args| >= 3 && Join(" ", args[2..]) != "" then t.(amount := amount, kind := INCOME, note := Join(" ", args[2..]))
      else t.(amount := amount, kind := INCOME)
  }

  /**
   * `update`: the checks run in a fixed order (token count, ID, row of this
   * chat, amount) and each failure leaves the store as it was; then the
   * changed fields are validated and saved.
   */
  method Update(db: Store, chat: int, args: seq<string>) returns (out: Outcome)
    requires db.Valid()
    modifies db
    ensures db.Valid() && db.chats == old(db.chats) && db.nextId == old(db.nextId)
    ensures |args| < 2 ==> out == Reply("Two arguments are required. Please check /help") && db.rows == old(db.rows)
    ensures |args| >= 2 && !Truthy(Utils.ParseId(args[0])) ==> out == Reply("Invalid ID") && db.rows == old(db.rows)
    ensures |args| >= 2 && Truthy(Utils.ParseId(args[0])) ==>
      var id := Utils.ParseId(args[0]).value;
      match FindRow(old(db.rows), id, chat)
      case None => out == Reply("Transaction not found") && db.rows == old(db.rows)
      case Some(k) =>
        if IsSigned(args[1]) && Utils.ParseAmount(args[1]).None? then
          out == Reply("Invalid amount") && db.rows == old(db.rows)
        else
          var u := Patched(old(db.rows)[k], args);
          if IsClean(true, u.amount, u.kind, u.note) then
            && out == Reply("Transaction " + IntToString(id) + " updated successfully")
            && db.rows == old(db.rows)[k := u]
            && GetBalance(db.rows, chat) == GetBalance(old(db.rows), chat) - Effect(old(db.rows)[k], chat) + Effect(u, chat)
          else
            out == Raised(ValidationError(FieldErrors(true, u.amount, u.kind, u.note))) && db.rows == old(db.rows)
  {
    if |args| < 2 {
      return Reply("Two arguments are required. Please check /help");
    }
    var id := Utils.ParseId(args[0]);
    if !Truthy(id) {
      return Reply("Invalid ID");
    }
    var found := FindRow(db.rows, id.value, chat);
    if found.None? {
      return Reply("Transaction not found");
    }
    var k := found.value;
    var t := db.rows[k];
    var amount: Option<int> := None;
    var note: Option<string> := None;
    var kind: Option<string> := None;
    if IsSigned(args[1]) {
      amount := Utils.ParseAmount(args[1]);
      if !Truthy(amount) {
        return Reply("Invalid amount");
      }
      kind := Some(if amount.value > 0 then INCOME else EXPENSE);
      if |args| >= 3 {
        note := Some(Join(" ", args[2..]));
      }
    } else {
      note := Some(Join(" ", args[1..]));
    }
    if Truthy(amount) && note.Some? && note.value != "" {
      t := t.(amount := amount.value, note := note.value, kind := kind.value);
    } else if Truthy(amount) {
      t := t.(amount := amount.value, kind := kind.value);
    } else {
      t := t.(note := note.value);
    }
    ghost var before := db.rows;
    var saved := db.Save(k, t);
    if saved.Fail? {
      return Raised(saved.error);
    }
    BalanceReplace(before, k, t, chat);
    out := Reply("Transaction " + IntToString(id.value) + " updated successfully");
  }

  /**
   * As written, `update` hands a `-`-prefixed token to `parse_amount` with its
   * sign, which refuses every value below 0.01: whatever amount follows the
   * `-`, the reply is "Invalid amount", so no update can make an operation an expense.
   */
  lemma MinusAmountRejected(amount: int)
    requires amount >= 0
    ensures IsSigned("-" + FormatCents(amount)) && Utils.ParseAmount("-" + FormatCents(amount)).None?
  {
    SignedAmountReadsBack(EXPENSE, amount);
    assert Sign(EXPENSE) == "-" by { assert EXPENSE[0] != INCOME[0]; }
    assert ("-" + FormatCents(amount))[..1] == "-";
  }

  /**
   * The update the help text's `<±amount>` describes: the sign picks the type
   * and the digits after it are the amount; the note rules are unchanged.
   */
  function IntendedPatch(t: Operation, args: seq<string>): (r: Result<Operation, string>)
    requires |args| >= 2
    ensures r.Ok? ==> r.value.id == t.id && r.value.chat == t.chat && r.value.createdAt == t.createdAt
    ensures r.Err? <==> IsSigned(args[1]) && !(Numbers.ParseUnsignedCents(args[1][1..]).Some? && Numbers.ParseUnsignedCents(args[1][1..]).value >= MIN_AMOUNT)
    ensures r.Err? ==> r.error == "Invalid amount"
  {
    if !IsSigned(args[1]) then Ok(t.(note := Join(" ", args[1..])))
    else
      match Numbers.ParseUnsignedCents(args[1][1..])
      case None => Err("Invalid amount")
      case Some(magnitude) =>
        if magnitude < MIN_AMOUNT then Err("Invalid amount")
        else
          var amount: int := magnitude;
          var kind := if StartsWith(args[1], "+") then INCOME else EXPENSE;
          if |args| >= 3 && Join(" ", args[2..]) != "" then Ok(t.(amount := amount, kind := kind, note := Join(" ", args[2..])))
          else Ok(t.(amount := amount, kind := kind))
  }

  /** In the intended update, a sign followed by any unsigned decimal sets the type the sign names and that amount. */
  lemma IntendedSignedToken(t: Operation, id: string, kind: string, u: string, v: nat, rest: seq<string>)
    requires IsKind(kind) && Numbers.ParseUnsignedCents(u) == Some(v) && v >= MIN_AMOUNT
    ensures var r := IntendedPatch(t, [id, Sign(kind) + u] + rest);
      && r.Ok? && r.value.kind == kind && r.value.amount == v
      && r.value.note == (if Join(" ", rest) != "" then Join(" ", rest) else t.note)
  {
    var args := [id, Sign(kind) + u] + rest;
    assert Sign(EXPENSE) == "-" by { assert EXPENSE[0] != INCOME[0]; }
    assert args[1][1..] == u;
    assert args[1][..1] == Sign(kind);
    assert args[2..] == rest;
  }

  /** In the intended update, a signed amount as the replies print it sets exactly that type and amount. */
  lemma IntendedSignPicksKind(t: Operation, id: string, kind: string, amount: int, rest: seq<string>)
    requires IsKind(kind) && amount >= MIN_AMOUNT
    ensures var r := IntendedPatch(t, [id, Sign(kind) + FormatCents(amount)] + rest);
      && r.Ok? && r.value.kind == kind && r.value.amount == amount
      && r.value.note == (if Join(" ", rest) != "" then Join(" ", rest) else t.note)
  {
    Numbers.UnsignedText(amount);
    IntendedSignedToken(t, id, kind, FormatUnsigned(amount), amount, rest);
  }

  /** On `+` tokens the intended update and the written one agree. */
  lemma IntendedAgreesOnPlus(t: Operation, args: seq<string>)
    requires |args| >= 2 && StartsWith(args[1], "+") && Utils.ParseAmount(args[1]).Some?
    ensures IntendedPatch(t, args) == Ok(Patched(t, args))
  {
    assert args[1][0] == '+' by { assert args[1][..1] == "+"; }
  }

  /** One report entry: ID, signed amount, note (`-` when empty) and the creation date, one line each. */
  function Block(t: Operation, dateText: int -> string): string {
    "ID: " + IntToString(t.id) + "\n"
    + "Amount: " + Sign(t.kind) + FormatCents(t.amount) + "\n"
    + "Note: " + (if t.note == "" then "-" else t.note) + "\n"
    + "Date: " + dateText(t.createdAt) + "\n"
  }

  /** The entry renderer of a report whose dates are shown by `dateText`. */
  function BlockOf(dateText: int -> string): Operation -> string {
    t => Block(t, dateText)
  }

  /** Each item rendered by `render`, in order. */
  function Rendered(items: seq<Operation>, render: Operation -> string): (texts: seq<string>)
    ensures |texts| == |items|
    decreases |items|
  {
    if items == [] then []
    else Rendered(items[..|items| - 1], render) + [render(items[|items| - 1])]
  }

  /** Text `i` is the rendering of item `i`. */
  lemma {:induction false} RenderedEntry(items: seq<Operation>, render: Operation -> string, i: nat)
    requires i < |items|
    ensures Rendered(items, render)[i] == render(items[i])
    decreases |items|
  {
    var init := items[..|items| - 1];
    if i < |init| {
      RenderedEntry(init, render, i);
      assert items[i] == init[i];
    }
  }

  /** The entries of a report, one per operation, in query order. */
  function Blocks(operations: seq<Operation>, dateText: int -> string): seq<string> {
    Rendered(operations, BlockOf(dateText))
  }

  /** Entry `i` of a report is the block of operation `i`. */
  lemma BlocksEntry(operations: seq<Operation>, dateText: int -> string, i: nat)
    requires i < |operations|
    ensures |Blocks(operations, dateText)| == |operations|
    ensures Blocks(operations, dateText)[i] == Block(operations[i], dateText)
  {
    RenderedEntry(operations, BlockOf(dateText), i);
  }

  /** The loop of `report` that renders one entry per operation, in order. */
  method RenderBlocks(operations: seq<Operation>, dateText: int -> string) returns (lines: seq<string>)
    ensures lines == Blocks(operations, dateText)
  {
    lines := [];
    var i := 0;
    while i < |operations|
      invariant 0 <= i <= |operations|
      invariant lines == Blocks(operations[..i], dateText)
    {
      assert operations[..i + 1][..i] == operations[..i];
      lines := lines + [Block(operations[i], dateText)];
      i := i + 1;
    }
    assert operations[..i] == operations;
  }

  /**
   * `report`: exactly one interval token; an unknown interval and an empty
   * result each have their own reply; otherwise one entry per operation of
   * the chat in that window, in creation order, separated by newlines.
   */
  method Report(db: Store, chat: int, args: seq<string>, resolve: string -> Result<Span, string>,
                dateText: int -> string) returns (reply: string)
    ensures |args| != 1 ==> reply == "One argument is required. Please check /help"
    ensures |args| == 1 && resolve(args[0]).Err? ==> reply == "Invalid interval"
    ensures |args| == 1 && resolve(args[0]).Ok? ==>
      var operations := RowsInSpan(db.rows, chat, resolve(args[0]).value);
      reply == if operations == [] then "No transactions" else Join("\n", Blocks(operations, dateText))
  {
    if |args| != 1 {
      return "One argument is required. Please check /help";
    }
    var query := TransactionsByInterval(db.rows, chat, args[0], resolve);
    if query.Err? {
      return "Invalid interval";
    }
    var operations := query.value;
    if operations == [] {
      return "No transactions";
    }
    var lines := RenderBlocks(operations, dateText);
    reply := Join("\n", lines);
  }
}
