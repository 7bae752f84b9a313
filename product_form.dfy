/** The add/edit product dialog of the front end: the `form` and `errors`
    state, the effect that fills or resets the form, the category chips, the
    validation of a submit and the payload it sends. */
module ProductForm {
  import opened Wrappers
  import opened Seqs
  import opened Db
  import opened ProductController

  /** Every input as typed text, plus the chosen category ids. */
  datatype Form = Form(
    name: string,
    description: string,
    price: string,
    stockQuantity: string,
    imageUrl: string,
    categoryIds: seq<int>)

  /** Keys of the `errors` record. */
  datatype Field = NameField | PriceField | StockField | CategoriesField | SubmitField

  type Errors = map<Field, string>

  /** The inputs a user types into. */
  datatype Input = NameInput | DescriptionInput | PriceInput | StockInput | ImageUrlInput

  /** JavaScript's `String(n)` and `Number(s)`, left uninterpreted. */
  datatype NumberText = NumberText(show: real -> string, parse: string -> real)

  /** What the mutation sends: the form with price and stock quantity as numbers. */
  datatype Payload = Payload(
    name: string,
    description: string,
    price: real,
    stockQuantity: real,
    imageUrl: string,
    categoryIds: seq<int>)

  const EMPTY_FORM := Form("", "", "", "", "", [])

  /** An error is shown when its entry is present and non-empty. */
  predicate Shows(errors: Errors, k: Field) {
    k in errors && errors[k] != ""
  }

  /** `value || ""`. */
  function OrEmpty(s: Option<string>): (r: string)
    ensures s.Some? ==> r == s.value
    ensures s.None? ==> r == ""
  {
    if s.Some? then s.value else ""
  }

  /** `product.categories.map(c => c.categoryId)`. */
  function CategoryIdsOf(cs: seq<Category>): (ids: seq<int>)
    ensures |ids| == |cs|
    ensures forall i :: 0 <= i < |cs| ==> ids[i] == cs[i].id
  {
    seq(|cs|, i requires 0 <= i < |cs| => cs[i].id)
  }

  /** The form the effect sets: filled from the product in edit mode, empty in new mode. */
  function InitialForm(product: Option<Listing>, num: NumberText): (f: Form)
    ensures product.None? ==> f == EMPTY_FORM
    ensures product.Some? ==>
      var p := product.value.product;
      && f.name == p.name
      && f.description == OrEmpty(p.description) && f.imageUrl == OrEmpty(p.imageUrl)
      && f.price == num.show(p.price) && f.stockQuantity == num.show(p.stockQuantity as real)
      && f.categoryIds == CategoryIdsOf(product.value.categories)
  {
    match product
    case None => EMPTY_FORM
    case Some(l) =>
      Form(l.product.name, OrEmpty(l.product.description), num.show(l.product.price),
           num.show(l.product.stockQuantity as real), OrEmpty(l.product.imageUrl),
           CategoryIdsOf(l.categories))
  }

  /** The message of a required field's error; the submit entry has none of its own. */
  function RequiredMessage(k: Field): (m: string)
    ensures m != "" <==> k != SubmitField
  {
    match k
    case NameField => "Name is required"
    case PriceField => "Price is required"
    case StockField => "Stock quantity is required"
    case CategoriesField => "At least one category is required"
    case SubmitField => ""
  }

  /** Whether the form leaves the field `k` empty. */
  predicate Missing(f: Form, k: Field) {
    match k
    case NameField => f.name == ""
    case PriceField => f.price == ""
    case StockField => f.stockQuantity == ""
    case CategoriesField => f.categoryIds == []
    case SubmitField => false
  }

  /** The errors a submit records: one per empty required field, each with its message. */
  function ValidationErrors(f: Form): (e: Errors)
    ensures forall k :: k in e <==> Missing(f, k)
    ensures forall k :: k in e ==> e[k] == RequiredMessage(k) && e[k] != ""
  {
    ErrorsFor(f, {NameField, PriceField, StockField, CategoriesField})
  }

  /** A form passes validation exactly when name, price and stock quantity are
      non-empty and at least one category is chosen. */
  lemma ValidIff(f: Form)
    ensures ValidationErrors(f) == map[] <==>
      f.name != "" && f.price != "" && f.stockQuantity != "" && f.categoryIds != []
  {
    if ValidationErrors(f) == map[] {
      assert !Missing(f, NameField) && !Missing(f, PriceField);
      assert !Missing(f, StockField) && !Missing(f, CategoriesField);
    } else {
      var k :| k in ValidationErrors(f);
    }
  }

  /** A new-mode form cannot be submitted as it is: all four required fields are reported. */
  lemma EmptyFormReportsAll()
    ensures ValidationErrors(EMPTY_FORM).Keys == {NameField, PriceField, StockField, CategoriesField}
  {
    assert Missing(EMPTY_FORM, NameField) && Missing(EMPTY_FORM, PriceField);
    assert Missing(EMPTY_FORM, StockField) && Missing(EMPTY_FORM, CategoriesField);
  }

  /** An edit-mode form, before any change, validates exactly when the product
      has a name and at least one category (given that `String(n)` is never empty). */
  lemma EditFormValidIff(l: Listing, num: NumberText)
    requires forall x :: num.show(x) != ""
    ensures ValidationErrors(InitialForm(Some(l), num)) == map[] <==> l.product.name != "" && l.categories != []
  {
    var f := InitialForm(Some(l), num);
    ValidIff(f);
    assert f.categoryIds == [] <==> l.categories == [];
  }

  /** `{...form, price: Number(form.price), stockQuantity: Number(form.stockQuantity)}`. */
  function ToPayload(f: Form, num: NumberText): (p: Payload)
    ensures p.name == f.name && p.description == f.description && p.imageUrl == f.imageUrl
    ensures p.categoryIds == f.categoryIds
    ensures p.price == num.parse(f.price) && p.stockQuantity == num.parse(f.stockQuantity)
  {
    Payload(f.name, f.description, num.parse(f.price), num.parse(f.stockQuantity), f.imageUrl, f.categoryIds)
  }

  /** `{...form, [input]: value}`. */
  function SetInput(f: Form, input: Input, value: string): (g: Form)
    ensures g.categoryIds == f.categoryIds
  {
    match input
    case NameInput => f.(name := value)
    case DescriptionInput => f.(description := value)
    case PriceInput => f.(price := value)
    case StockInput => f.(stockQuantity := value)
    case ImageUrlInput => f.(imageUrl := value)
  }

  /** The error entry an input's onChange clears, if it has one: the entry of
      the field that input fills. */
  function ErrorOf(input: Input): (k: Option<Field>)
    ensures k.Some? <==> input != DescriptionInput && input != ImageUrlInput
    ensures k != Some(CategoriesField) && k != Some(SubmitField)
    ensures k.Some? ==> forall f: Form, v: string :: Missing(SetInput(f, input, v), k.value) <==> v == ""
  {
    match input
    case NameInput => Some(NameField)
    case PriceInput => Some(PriceField)
    case StockInput => Some(StockField)
    case DescriptionInput => None
    case ImageUrlInput => None
  }

  /** The select's options: the categories not chosen yet, in their order.
      While the categories are loading there are none. */
  function SelectOptions(categories: Option<seq<Category>>, chosen: seq<int>): (r: seq<Category>)
    ensures categories.None? ==> r == []
    ensures categories.Some? ==> forall c :: c in r <==> c in categories.value && c.id !in chosen
  {
    match categories
    case None => []
    case Some(cs) => Filter(cs, (c: Category) => c.id !in chosen)
  }

  /** The dialog's state. `product` is the prop: present in edit mode. */
  class ProductFormState {
    const product: Option<Listing>
    const num: NumberText
    var open: bool
    var form: Form
    var errors: Errors

    /** Mounting: the initial state, after which the effect has run once. */
    constructor (product: Option<Listing>, num: NumberText)
      ensures this.product == product && this.num == num
      ensures !open && form == InitialForm(product, num) && errors == map[]
    {
      this.product := product;
      this.num := num;
      open := false;
      form := InitialForm(product, num);
      errors := map[];
    }

    /** The effect on `[product, open]`: fill or reset the form and clear every error. */
    method Reset()
      modifies this
      ensures form == InitialForm(product, num) && errors == map[] && open == old(open)
    {
      form := InitialForm(product, num);
      errors := map[];
    }

    /** `onOpenChange`: a change of `open` runs the effect again. */
    method SetOpen(b: bool)
      modifies this
      ensures open == b
      ensures b != old(open) ==> form == InitialForm(product, num) && errors == map[]
      ensures b == old(open) ==> form == old(form) && errors == old(errors)
    {
      if b != open {
        open := b;
        Reset();
      }
    }

    /** An input's onChange: set that input, and clear that input's error if it is shown. */
    method Edit(input: Input, value: string)
      modifies this
      ensures form == SetInput(old(form), input, value)
      ensures ErrorOf(input).Some? ==> !Shows(errors, ErrorOf(input).value)
      ensures forall k :: Some(k) != ErrorOf(input) ==> (k in errors <==> k in old(errors))
      ensures forall k :: k in errors && Some(k) != ErrorOf(input) ==> errors[k] == old(errors)[k]
      ensures errors.Keys == old(errors).Keys
      ensures open == old(open)
    {
      form := SetInput(form, input, value);
      match ErrorOf(input)
      case Some(k) =>
        if Shows(errors, k) {
          errors := errors[k := ""];
        }
      case None =>
    }

    /** `addCategory`: append the id when it is not chosen yet, and clear a shown category error. */
    method AddCategory(id: int)
      modifies this
      ensures form.categoryIds == if id in old(form.categoryIds) then old(form.categoryIds) else old(form.categoryIds) + [id]
      ensures form == old(form).(categoryIds := form.categoryIds)
      ensures id in form.categoryIds
      ensures NoDup(old(form.categoryIds)) ==> NoDup(form.categoryIds)
      ensures !Shows(errors, CategoriesField)
      ensures errors.Keys == old(errors).Keys
      ensures forall k :: k in errors && k != CategoriesField ==> errors[k] == old(errors)[k]
      ensures open == old(open)
    {
      if id !in form.categoryIds {
        form := form.(categoryIds := form.categoryIds + [id]);
      }
      if Shows(errors, CategoriesField) {
        errors := errors[CategoriesField := ""];
      }
    }

    /** `removeCategory`: drop the id and keep the other ids in their order. */
    method RemoveCategory(id: int)
      modifies this
      ensures form.categoryIds == Filter(old(form.categoryIds), (x: int) => x != id)
      ensures forall x :: x in form.categoryIds <==> x in old(form.categoryIds) && x != id
      ensures form == old(form).(categoryIds := form.categoryIds)
      ensures NoDup(old(form.categoryIds)) ==> NoDup(form.categoryIds)
      ensures errors == old(errors) && open == old(open)
    {
      if NoDup(form.categoryIds) {
        FilterNoDup(form.categoryIds, (x: int) => x != id);
      }
      form := form.(categoryIds := Filter(form.categoryIds, (x: int) => x != id));
    }

    /** `handleSubmit`: record the errors and send nothing if there is any,
        otherwise send the payload. */
    method HandleSubmit() returns (sent: Option<Payload>)
      modifies this
      ensures form == old(form) && open == old(open)
      ensures sent.None? <==> ValidationErrors(form) != map[]
      ensures sent.None? ==> errors == ValidationErrors(form)
      ensures sent.Some? ==> errors == old(errors) && sent.value == ToPayload(form, num)
    {
      var newErrors := CollectErrors(form);
      if |newErrors| > 0 {
        errors := newErrors;
        return None;
      }
      sent := Some(ToPayload(form, num));
    }
    /** The mutation's onSuccess: close the dialog, which runs the effect. */
    method OnSubmitSuccess()
      modifies this
      ensures !open
      ensures old(open) ==> form == InitialForm(product, num) && errors == map[]
      ensures !old(open) ==> form == old(form) && errors == old(errors)
    {
      SetOpen(false);
    }

    /** The mutation's onError: the server's `error` text, or a generic message. */
    method OnSubmitError(serverError: Option<string>)
      modifies this
      ensures errors == map[SubmitField := if Truthy(serverError) then serverError.value else "An error occurred"]
      ensures form == old(form) && open == old(open)
    {
      if Truthy(serverError) {
        errors := map[SubmitField := serverError.value];
      } else {
        errors := map[SubmitField := "An error occurred"];
      }
    }
  }

  /** The errors for the required fields in `ks` alone. */
  function ErrorsFor(f: Form, ks: set<Field>): Errors {
    map k | k in ks && Missing(f, k) :: RequiredMessage(k)
  }

  /** Checking one more field adds its error exactly when it is missing. */
  lemma ErrorsForAdd(f: Form, ks: set<Field>, k: Field)
    ensures ErrorsFor(f, ks + {k}) ==
      if Missing(f, k) then ErrorsFor(f, ks)[k := RequiredMessage(k)] else ErrorsFor(f, ks)
  {
  }

  /** One check of `handleSubmit`: record the field's message when the field is empty. */
  method CheckField(errs: Errors, f: Form, ks: set<Field>, k: Field) returns (r: Errors)
    requires errs == ErrorsFor(f, ks)
    ensures r == ErrorsFor(f, ks + {k})
    ensures Missing(f, k) ==> r[k] == RequiredMessage(k)
  {
    ErrorsForAdd(f, ks, k);
    r := errs;
    if Missing(f, k) {
      r := r[k := RequiredMessage(k)];
    }
  }

  /** The validation of `handleSubmit`: the four required fields, checked in turn. */
  method CollectErrors(f: Form) returns (newErrors: Errors)
    ensures newErrors == ValidationErrors(f)
  {
    newErrors := map[];
    assert newErrors == ErrorsFor(f, {});
    newErrors := CheckField(newErrors, f, {}, NameField);
    assert {} + {NameField} == {NameField};
    newErrors := CheckField(newErrors, f, {NameField}, PriceField);
    assert {NameField} + {PriceField} == {NameField, PriceField};
    newErrors := CheckField(newErrors, f, {NameField, PriceField}, StockField);
    assert {NameField, PriceField} + {StockField} == {NameField, PriceField, StockField};
    newErrors := CheckField(newErrors, f, {NameField, PriceField, StockField}, CategoriesField);
    assert {NameField, PriceField, StockField} + {CategoriesField} == {NameField, PriceField, StockField, CategoriesField};
  }
}
