/**
 * The calculator screen's state and its handlers (the `App` component of
 * src/App.tsx). Each React state setter is an assignment to a field; the
 * history's copy in local storage is the `storage` field.
 */
module App {
  import opened Wrappers
  import opened Pricing
  import opened History
  import FileName

  /** The form as typed: every field is the input element's string value. */
  datatype FormData = FormData(
    productName: string,
    materialCost: string,
    laborCost: string,
    overheadExpenses: string,
    profitPercentage: string,
    discountPercentage: string,
    taxPercentage: string)

  /** The form with every field empty, as at start-up and after a save. */
  const EmptyForm: FormData := FormData("", "", "", "", "", "", "")

  /** The `name` attribute of each input element of the form. */
  datatype Field =
    | ProductName | MaterialCost | LaborCost | OverheadExpenses
    | ProfitPercentage | DiscountPercentage | TaxPercentage

  function FieldValue(form: FormData, field: Field): string {
    match field
    case ProductName => form.productName
    case MaterialCost => form.materialCost
    case LaborCost => form.laborCost
    case OverheadExpenses => form.overheadExpenses
    case ProfitPercentage => form.profitPercentage
    case DiscountPercentage => form.discountPercentage
    case TaxPercentage => form.taxPercentage
  }

  /** `{ ...prev, [name]: value }`: one field replaced, the others kept. */
  function WithField(form: FormData, field: Field, value: string): (f: FormData)
    ensures FieldValue(f, field) == value
    ensures forall other :: other != field ==> FieldValue(f, other) == FieldValue(form, other)
  {
    match field
    case ProductName => form.(productName := value)
    case MaterialCost => form.(materialCost := value)
    case LaborCost => form.(laborCost := value)
    case OverheadExpenses => form.(overheadExpenses := value)
    case ProfitPercentage => form.(profitPercentage := value)
    case DiscountPercentage => form.(discountPercentage := value)
    case TaxPercentage => form.(taxPercentage := value)
  }

  /** The six numeric fields run through `parse`, which stands for `parseFloat`. */
  function ParseForm(form: FormData, parse: string -> Option<real>): ParsedInputs {
    ParsedInputs(parse(form.materialCost), parse(form.laborCost), parse(form.overheadExpenses),
                 parse(form.profitPercentage), parse(form.discountPercentage), parse(form.taxPercentage))
  }

  /** When the empty string does not parse, calculating on a cleared form yields an all-zero record. */
  lemma CalculatingEmptyForm(parse: string -> Option<real>, timestamp: string)
    requires parse("") == None
    ensures var c := Compute(EmptyForm.productName, ParseForm(EmptyForm, parse), timestamp);
      && c.productName == ""
      && c.materialCost == c.laborCost == c.overheadExpenses == 0.0
      && c.baseCost == c.totalPrice == 0.0
  {
    UnparsedInputsGiveZeroRecord("", timestamp);
  }

  class PricingApp {
    var formData: FormData
    var currentCalculation: Option<Calculation>
    var history: seq<Calculation>
    var showResults: bool
    /** The browser's local storage, as far as the history key is concerned. */
    var storage: Storage

    /** The stored history mirrors the list in memory; results show exactly when a calculation is pending. */
    ghost predicate Valid()
      reads this
    {
      Mirrors(storage, history) && showResults == currentCalculation.Some?
    }

    /** The component's initial state, then the mount-time `loadHistory`. */
    constructor (storage: Storage)
      ensures Valid()
      ensures formData == EmptyForm && currentCalculation == None && !showResults
      ensures history == Loaded(storage, []) && this.storage == storage
    {
      formData := EmptyForm;
      currentCalculation := None;
      history := [];
      showResults := false;
      this.storage := storage;
      new;
      LoadHistory();
    }

    /** `loadHistory`: take the stored list when the key is present, otherwise keep the one in memory. */
    method LoadHistory()
      modifies this
      ensures history == Loaded(old(storage), old(history))
      ensures StorageKey in storage ==> Mirrors(storage, history)
      ensures old(Valid()) ==> Valid() && history == old(history)
      ensures storage == old(storage) && formData == old(formData)
      ensures currentCalculation == old(currentCalculation) && showResults == old(showResults)
    {
      if StorageKey in storage {
        history := storage[StorageKey];
      }
    }

    /** `handleInputChange`: the named field takes the typed value. */
    method SetField(field: Field, value: string)
      requires Valid()
      modifies this
      ensures Valid()
      ensures formData == WithField(old(formData), field, value)
      ensures history == old(history) && storage == old(storage)
      ensures currentCalculation == old(currentCalculation) && showResults == old(showResults)
    {
      formData := WithField(formData, field, value);
    }

    /** `calculatePrice`: compute the record from the form and show it as pending. */
    method CalculatePrice(parse: string -> Option<real>, timestamp: string)
      requires Valid()
      modifies this
      ensures Valid()
      ensures currentCalculation == Some(Compute(formData.productName, ParseForm(formData, parse), timestamp))
      ensures showResults
      ensures formData == old(formData) && history == old(history) && storage == old(storage)
    {
      currentCalculation := Some(Compute(formData.productName, ParseForm(formData, parse), timestamp));
      showResults := true;
    }

    /**
     * `saveCalculation`: with nothing pending nothing happens. Otherwise the
     * pending record goes to the front of the history, the history is written
     * to storage, the PDF is downloaded under `pdfName`, and the form is reset.
     */
    method SaveCalculation() returns (pdfName: Option<string>)
      requires Valid()
      modifies this
      ensures Valid()
      ensures old(currentCalculation).None? ==>
        && pdfName == None
        && history == old(history) && storage == old(storage)
        && formData == old(formData) && currentCalculation == None && !showResults
      ensures old(currentCalculation).Some? ==>
        && history == [old(currentCalculation).value] + old(history)
        && storage == old(storage)[StorageKey := history]
        && pdfName == Some(FileName.PdfFileName(old(currentCalculation).value.productName))
        && formData == EmptyForm && currentCalculation == None && !showResults
    {
      if currentCalculation.None? {
        return None;
      }
      var calculation := currentCalculation.value;
      var newHistory := [calculation] + history;
      SaveThenLoad(storage, newHistory, history);
      history := newHistory;
      storage := storage[StorageKey := newHistory];
      pdfName := Some(FileName.PdfFileName(calculation.productName));
      formData := EmptyForm;
      showResults := false;
      currentCalculation := None;
    }

    /** `deleteHistoryItem`: drop the entry at `index` (none if out of range) and write the result to storage. */
    method DeleteHistoryItem(index: int)
      requires Valid()
      modifies this
      ensures Valid()
      ensures history == RemoveAt(old(history), index)
      ensures storage == old(storage)[StorageKey := history]
      ensures formData == old(formData) && currentCalculation == old(currentCalculation)
      ensures showResults == old(showResults)
    {
      var newHistory := RemoveAt(history, index);
      SaveThenLoad(storage, newHistory, history);
      history := newHistory;
      storage := storage[StorageKey := newHistory];
    }

    /** `clearAllHistory`: when the user confirms, empty the history and remove the storage key. */
    method ClearAllHistory(confirmed: bool)
      requires Valid()
      modifies this
      ensures Valid()
      ensures confirmed ==> history == [] && storage == old(storage) - {StorageKey}
      ensures !confirmed ==> history == old(history) && storage == old(storage)
      ensures formData == old(formData) && currentCalculation == old(currentCalculation)
      ensures showResults == old(showResults)
    {
      if confirmed {
        history := [];
        storage := storage - {StorageKey};
      }
    }
  }

  /**
   * A page reload: a new component mounted over the same storage finds
   * exactly the history the old one had in memory.
   */
  method Reload(app: PricingApp) returns (reloaded: seq<Calculation>)
    requires app.Valid()
    ensures reloaded == app.history
  {
    var mounted := new PricingApp(app.storage);
    LoadingMirroredStorage(app.storage, app.history, []);
    reloaded := mounted.history;
  }

  /**
   * Calculating and saving, then reloading the page: the reloaded history is
   * the saved one, one longer than what was stored before, with the new
   * record at its head.
   */
  method SaveThenReload(storage: Storage, parse: string -> Option<real>, timestamp: string)
    returns (saved: seq<Calculation>, reloaded: seq<Calculation>)
    ensures reloaded == saved
    ensures |saved| == |Loaded(storage, [])| + 1
    ensures saved[0] == Compute("", ParseForm(EmptyForm, parse), timestamp)
    ensures saved[1..] == Loaded(storage, [])
  {
    var app := new PricingApp(storage);
    app.CalculatePrice(parse, timestamp);
    var pdfName := app.SaveCalculation();
    saved := app.history;
    reloaded := Reload(app);
  }

  /** A confirmed clear, then reloading the page: the reloaded history is empty. */
  method ClearThenReload(storage: Storage) returns (reloaded: seq<Calculation>)
    ensures reloaded == []
  {
    var app := new PricingApp(storage);
    app.ClearAllHistory(true);
    ClearThenLoad(storage, []);
    var mounted := new PricingApp(app.storage);
    reloaded := mounted.history;
  }
}
