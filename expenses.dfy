/**
 * The fixed-costs tracker page: the lists of incomes and expenses with their
 * monthly totals, and the add/edit dialog whose state decides which record is
 * written to which table.
 */
module Expenses {
  import opened Wrappers
  import opened CashFlow

  /** The category a new, or a category-less, record starts with. */
  const DefaultCategory: string := "Sonstiges"

  /**
   * The expense categories offered by the category drop-down: eight distinct
   * names, the default category last.
   */
  function Categories(): (r: seq<string>)
    ensures |r| == 8
    ensures r[|r| - 1] == DefaultCategory
    ensures forall i, j :: 0 <= i < j < |r| ==> r[i] != r[j]
  {
    var names := ["Miete", "Versicherungen", "Abos", "Strom", "Internet", "Lebensmittel", "Transport", "Sonstiges"];
    // the first two letters tell the names apart
    assert forall k :: 0 <= k < |names| ==> |names[k]| >= 2 && names[k][..2] == ["Mi", "Ve", "Ab", "St", "In", "Le", "Tr", "So"][k];
    names
  }

  /** The caption of a listed row: "Jährlich" for "yearly" and "Monatlich" for any other interval. */
  function IntervalLabel(interval: string): (r: string)
    ensures r == "Jährlich" <==> interval == "yearly"
    ensures r == "Monatlich" <==> interval != "yearly"
  {
    if interval == "yearly" then "Jährlich" else "Monatlich"
  }

  /** A row captioned "Monatlich" is counted at its full amount, one captioned "Jährlich" at a twelfth. */
  lemma LabelAgreesWithToMonthly(amount: real, interval: string)
    ensures IntervalLabel(interval) == "Monatlich" ==> ToMonthly(amount, interval) == amount
    ensures IntervalLabel(interval) == "Jährlich" ==> ToMonthly(amount, interval) * 12.0 == amount
  {
  }

  /** `dialogType`: "income" or "expense". */
  datatype Kind = IncomeKind | ExpenseKind

  /** A listed row handed to `openEdit`: an income has no `category` field. */
  datatype Item = IncomeItem(income: Income) | ExpenseItem(expense: Expense) {
    function Id(): string {
      match this
      case IncomeItem(i) => i.id
      case ExpenseItem(e) => e.id
    }
    function Name(): string {
      match this
      case IncomeItem(i) => i.name
      case ExpenseItem(e) => e.name
    }
    function Amount(): real {
      match this
      case IncomeItem(i) => i.amount
      case ExpenseItem(e) => e.amount
    }
    function Interval(): string {
      match this
      case IncomeItem(i) => i.interval
      case ExpenseItem(e) => e.interval
    }
  }

  /**
   * `form`. The amount field holds the number its text denotes: `None` for text
   * that `parseFloat` reads as NaN (the empty text of a new record), `Some(v)`
   * for the text `String(v)` of an edited record.
   */
  datatype Form = Form(name: string, amount: Option<real>, category: string, interval: string)

  const BlankForm: Form := Form("", None, DefaultCategory, "monthly")

  /** The dialog's state: `dialogOpen`, `dialogType`, `editingId`, `form`. */
  datatype Dialog = Dialog(open: bool, kind: Kind, editingId: Option<string>, form: Form)

  /** The record `handleSave` writes; `category` is present only for an expense. */
  datatype SaveRecord = SaveRecord(name: string, amount: Option<real>, interval: string,
                                   userId: string, category: Option<string>)

  /** A write to the database. */
  datatype Request =
    | Insert(table: string, record: SaveRecord)
    | Update(table: string, record: SaveRecord, id: string)
    | Delete(table: string, id: string)

  /** The table of a dialog type, on save and on delete alike. */
  function TableFor(kind: Kind): (r: string)
    ensures r == "incomes" <==> kind == IncomeKind
    ensures r == "fixed_expenses" <==> kind == ExpenseKind
  {
    match kind
    case IncomeKind => assert "incomes"[0] != "fixed_expenses"[0]; "incomes"
    case ExpenseKind => assert "fixed_expenses"[0] != "incomes"[0]; "fixed_expenses"
  }

  /** JavaScript truthiness of `editingId`: null and the empty string are false. */
  predicate IsEditing(editingId: Option<string>): (r: bool)
    ensures r ==> editingId.Some?
    ensures editingId == Some("") ==> !r
    ensures (editingId.Some? && |editingId.value| > 0) ==> r
  {
    editingId.Some? && editingId.value != ""
  }

  /** The dialog after `openAdd(kind)`, whatever it was before. */
  function AddDialog(kind: Kind): (r: Dialog)
    ensures r.open && r.kind == kind && r.editingId == None
    ensures r.form == Form("", None, "Sonstiges", "monthly")
  {
    Dialog(true, kind, None, BlankForm)
  }

  /** The dialog after `openEdit(item, kind)`: the form holds the item's fields. */
  function EditDialog(item: Item, kind: Kind): (r: Dialog)
    ensures r.open && r.kind == kind && r.editingId == Some(item.Id())
    ensures r.form.name == item.Name() && r.form.amount == Some(item.Amount())
    ensures r.form.interval == item.Interval()
    ensures r.form.category == if item.ExpenseItem? then item.expense.category else "Sonstiges"
  {
    var category := match item
      case ExpenseItem(e) => e.category
      case IncomeItem(_) => DefaultCategory;
    Dialog(true, kind, Some(item.Id()), Form(item.Name(), Some(item.Amount()), category, item.Interval()))
  }

  /** The record `handleSave` builds for the signed-in user. */
  function RecordOf(d: Dialog, userId: string): (r: SaveRecord)
    ensures r.name == d.form.name && r.amount == d.form.amount && r.interval == d.form.interval
    ensures r.userId == userId
    ensures r.category.Some? <==> d.kind == ExpenseKind
    ensures r.category.Some? ==> r.category.value == d.form.category
  {
    SaveRecord(d.form.name, d.form.amount, d.form.interval, userId,
               if d.kind == ExpenseKind then Some(d.form.category) else None)
  }

  /** The write `handleSave` issues: an update of the edited row, or an insert. */
  function SaveRequest(d: Dialog, userId: string): (r: Request)
    ensures r.Update? <==> IsEditing(d.editingId)
    ensures r.Insert? <==> !IsEditing(d.editingId)
    ensures !r.Delete? && r.table == TableFor(d.kind) && r.record == RecordOf(d, userId)
    ensures r.Update? ==> r.id == d.editingId.value
  {
    var data := RecordOf(d, userId);
    var table := TableFor(d.kind);
    if IsEditing(d.editingId) then Update(table, data, d.editingId.value) else Insert(table, data)
  }

  /** The dialog once the write has answered: closed on success, as it was on error. */
  function AfterSave(d: Dialog, error: bool): (r: Dialog)
    ensures r.open <==> d.open && error
    ensures r.kind == d.kind && r.editingId == d.editingId && r.form == d.form
  {
    if error then d else d.(open := false)
  }

  /** `handleDelete(id, kind)`. */
  function DeleteRequest(id: string, kind: Kind): (r: Request)
    ensures r.Delete? && r.id == id
    ensures r.table == "incomes" <==> kind == IncomeKind
  {
    Delete(TableFor(kind), id)
  }

  /** The dialog's title: "Bearbeiten" exactly when saving would update, then the record type. */
  function DialogTitle(d: Dialog): (r: string)
    ensures |r| >= 12
    ensures r[..10] == if SaveRequest(d, "").Update? then "Bearbeiten" else "Hinzufügen"
    ensures r[12..] == if d.kind == IncomeKind then "Einnahme" else "Fixkosten"
  {
    (if IsEditing(d.editingId) then "Bearbeiten" else "Hinzufügen") + ": "
      + (if d.kind == IncomeKind then "Einnahme" else "Fixkosten")
  }

  /** A saved record carries a category exactly when it goes to the expense table. */
  lemma CategoryIffExpenseTable(d: Dialog, userId: string)
    ensures SaveRequest(d, userId).record.category.Some?
        <==> SaveRequest(d, userId).table == "fixed_expenses"
    ensures SaveRequest(d, userId).table == DeleteRequest("", d.kind).table
  {
  }

  /**
   * Editing a row and saving without changes writes the row's own name, amount
   * and interval back to it; its category too when saved as an expense.
   */
  lemma EditThenSaveWritesBack(item: Item, kind: Kind, userId: string)
    requires item.Id() != ""
    ensures SaveRequest(EditDialog(item, kind), userId)
         == Update(TableFor(kind),
                   SaveRecord(item.Name(), Some(item.Amount()), item.Interval(), userId,
                              if kind == IncomeKind then None
                              else if item.ExpenseItem? then Some(item.expense.category)
                              else Some(DefaultCategory)),
                   item.Id())
  {
  }

  /** A new record saved without typing is inserted blank, monthly, in the default category if an expense. */
  lemma AddThenSaveInserts(kind: Kind, userId: string)
    ensures SaveRequest(AddDialog(kind), userId)
         == Insert(TableFor(kind),
                   SaveRecord("", None, "monthly", userId,
                              if kind == ExpenseKind then Some("Sonstiges") else None))
  {
  }

  /** The page's state. */
  class ExpensesPage {
    var incomes: seq<Income>
    var expenses: seq<Expense>
    var dialogOpen: bool
    var dialogType: Kind
    var editingId: Option<string>
    var form: Form

    function DialogState(): Dialog
      reads this
    {
      Dialog(dialogOpen, dialogType, editingId, form)
    }

    /** The state of a freshly mounted page. */
    constructor ()
      ensures incomes == [] && expenses == []
      ensures DialogState() == Dialog(false, ExpenseKind, None, BlankForm)
    {
      incomes, expenses := [], [];
      dialogOpen, dialogType, editingId, form := false, ExpenseKind, None, BlankForm;
    }

    /** The state updates of `load`; a failed fetch leaves an empty list. */
    method Load(inc: Option<seq<Income>>, exp: Option<seq<Expense>>)
      modifies this
      ensures incomes == OrEmpty(inc) && expenses == OrEmpty(exp)
      ensures DialogState() == old(DialogState())
    {
      incomes := OrEmpty(inc);
      expenses := OrEmpty(exp);
    }

    /** The Einnahmen/Monat figure. */
    function MonthlyIncome(): (r: real)
      reads this
      ensures incomes == [] ==> r == 0.0
      ensures (forall k :: 0 <= k < |incomes| ==> incomes[k].amount >= 0.0) ==> r >= 0.0
    {
      TotalIncome(incomes)
    }

    /** The Ausgaben/Monat figure. */
    function MonthlyExpenses(): (r: real)
      reads this
      ensures expenses == [] ==> r == 0.0
      ensures (forall k :: 0 <= k < |expenses| ==> expenses[k].amount >= 0.0) ==> r >= 0.0
    {
      TotalExpenses(expenses)
    }

    method OpenAdd(kind: Kind)
      modifies this
      ensures DialogState() == AddDialog(kind)
      ensures incomes == old(incomes) && expenses == old(expenses)
    {
      dialogType := kind;
      editingId := None;
      form := BlankForm;
      dialogOpen := true;
    }

    method OpenEdit(item: Item, kind: Kind)
      modifies this
      ensures DialogState() == EditDialog(item, kind)
      ensures incomes == old(incomes) && expenses == old(expenses)
    {
      dialogType := kind;
      editingId := Some(item.Id());
      var category := match item
        case ExpenseItem(e) => e.category
        case IncomeItem(_) => DefaultCategory;
      form := Form(item.Name(), Some(item.Amount()), category, item.Interval());
      dialogOpen := true;
    }

    /** Typing into the name field. */
    method EditName(name: string)
      modifies this
      ensures form == old(form).(name := name)
      ensures dialogOpen == old(dialogOpen) && dialogType == old(dialogType) && editingId == old(editingId)
      ensures incomes == old(incomes) && expenses == old(expenses)
    {
      form := form.(name := name);
    }

    /** Typing into the amount field. */
    method EditAmount(amount: Option<real>)
      modifies this
      ensures form == old(form).(amount := amount)
      ensures dialogOpen == old(dialogOpen) && dialogType == old(dialogType) && editingId == old(editingId)
      ensures incomes == old(incomes) && expenses == old(expenses)
    {
      form := form.(amount := amount);
    }

    /** Choosing a category. */
    method EditCategory(category: string)
      modifies this
      ensures form == old(form).(category := category)
      ensures dialogOpen == old(dialogOpen) && dialogType == old(dialogType) && editingId == old(editingId)
      ensures incomes == old(incomes) && expenses == old(expenses)
    {
      form := form.(category := category);
    }

    /** Choosing an interval. */
    method EditInterval(interval: string)
      modifies this
      ensures form == old(form).(interval := interval)
      ensures dialogOpen == old(dialogOpen) && dialogType == old(dialogType) && editingId == old(editingId)
      ensures incomes == old(incomes) && expenses == old(expenses)
    {
      form := form.(interval := interval);
    }

    /** The dialog's own open/close control (`onOpenChange`). */
    method SetDialogOpen(open: bool)
      modifies this
      ensures DialogState() == old(DialogState()).(open := open)
      ensures incomes == old(incomes) && expenses == old(expenses)
    {
      dialogOpen := open;
    }

    /**
     * `handleSave`: nothing without a signed-in user; otherwise the write it
     * issues, and the dialog closed only when the write reports no error.
     */
    method HandleSave(user: Option<string>, error: bool) returns (request: Option<Request>)
      modifies this
      ensures user.None? ==> request == None && DialogState() == old(DialogState())
      ensures user.Some? ==> request == Some(SaveRequest(old(DialogState()), user.value))
      ensures user.Some? ==> DialogState() == AfterSave(old(DialogState()), error)
      ensures incomes == old(incomes) && expenses == old(expenses)
    {
      if user.None? {
        return None;
      }
      var data := SaveRecord(form.name, form.amount, form.interval, user.value,
                             if dialogType == ExpenseKind then Some(form.category) else None);
      var table := if dialogType == IncomeKind then "incomes" else "fixed_expenses";
      if editingId.Some? && editingId.value != "" {
        request := Some(Update(table, data, editingId.value));
      } else {
        request := Some(Insert(table, data));
      }
      if !error {
        dialogOpen := false;
      }
    }
  }

}
