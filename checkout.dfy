/** The checkout page: the shipping form and its validity rule, the prefill
    from the saved address, the payment buttons' enabled state, and the
    routing after an approved or failed payment. */
module Checkout {
  import opened Common
  import opened Cart
  import opened Auth

  // ---------------------------------------------------------------------
  // The shipping form
  // ---------------------------------------------------------------------

  datatype Field = FullName | Email | Address1 | Address2 | City | State | Zipcode

  /** The input's `name`, which is also the key of its field error. */
  function FieldName(f: Field): string {
    match f
    case FullName => "full_name"
    case Email => "email"
    case Address1 => "address1"
    case Address2 => "address2"
    case City => "city"
    case State => "state"
    case Zipcode => "zipcode"
  }

  /** Different inputs have different names. */
  lemma FieldNamesDistinct(f: Field, g: Field)
    requires FieldName(f) == FieldName(g)
    ensures f == g
  {
  }

  datatype ShippingForm = ShippingForm(
    fullName: string,
    email: string,
    address1: string,
    address2: string,
    city: string,
    state: string,
    zipcode: string)

  const EmptyForm: ShippingForm := ShippingForm("", "", "", "", "", "", "")

  function Get(form: ShippingForm, f: Field): string {
    match f
    case FullName => form.fullName
    case Email => form.email
    case Address1 => form.address1
    case Address2 => form.address2
    case City => form.city
    case State => form.state
    case Zipcode => form.zipcode
  }

  /** `{ ...formData, [name]: value }` */
  function Set(form: ShippingForm, f: Field, v: string): (r: ShippingForm)
    ensures Get(r, f) == v
    ensures forall g :: g != f ==> Get(r, g) == Get(form, g)
  {
    match f
    case FullName => form.(fullName := v)
    case Email => form.(email := v)
    case Address1 => form.(address1 := v)
    case Address2 => form.(address2 := v)
    case City => form.(city := v)
    case State => form.(state := v)
    case Zipcode => form.(zipcode := v)
  }

  /** The four inputs marked `required`. */
  predicate Required(f: Field) {
    f == FullName || f == Email || f == Address1 || f == City
  }

  /** `checkFormValidity`: each required value is present and not blank
      after trimming. */
  predicate FormValid(form: ShippingForm) {
    !IsBlank(form.fullName) && !IsBlank(form.email) && !IsBlank(form.address1) && !IsBlank(form.city)
  }

  /** A value has a character that is not whitespace. */
  predicate HasContent(s: string) {
    exists i :: 0 <= i < |s| && !IsJsWhitespace(s[i])
  }

  /** The form is valid exactly when every required field holds a character
      that is not whitespace. */
  lemma FormValidIff(form: ShippingForm)
    ensures FormValid(form) <==> forall f :: Required(f) ==> HasContent(Get(form, f))
  {
    BlankIffAllWhitespace(form.fullName);
    BlankIffAllWhitespace(form.email);
    BlankIffAllWhitespace(form.address1);
    BlankIffAllWhitespace(form.city);
    assert FormValid(form) <==>
      HasContent(form.fullName) && HasContent(form.email) && HasContent(form.address1) && HasContent(form.city);
    assert (forall f :: Required(f) ==> HasContent(Get(form, f))) <==>
      HasContent(Get(form, FullName)) && HasContent(Get(form, Email)) &&
      HasContent(Get(form, Address1)) && HasContent(Get(form, City));
  }

  /** Address line 2, state and ZIP code play no part: forms that agree on
      the required fields are equally valid. */
  lemma OnlyRequiredFieldsMatter(a: ShippingForm, b: ShippingForm)
    requires forall f :: Required(f) ==> Get(a, f) == Get(b, f)
    ensures FormValid(a) == FormValid(b)
  {
    assert Get(a, FullName) == Get(b, FullName) && Get(a, Email) == Get(b, Email);
    assert Get(a, Address1) == Get(b, Address1) && Get(a, City) == Get(b, City);
  }

  /** The values the validity effect depends on are the same in both forms. */
  predicate SameRequired(a: ShippingForm, b: ShippingForm) {
    a.fullName == b.fullName && a.email == b.email && a.address1 == b.address1 && a.city == b.city
  }

  /** Blanking any required field makes the form invalid. */
  lemma BlankRequiredInvalidates(form: ShippingForm, f: Field, v: string)
    requires Required(f) && IsBlank(v)
    ensures !FormValid(Set(form, f, v))
  {
  }

  /** `formData.address2?.trim() || ''`: the form as it is posted. */
  function Cleaned(form: ShippingForm): (r: ShippingForm)
    ensures forall f :: f != Address2 ==> Get(r, f) == Get(form, f)
    ensures r.address2 == Trim(form.address2)
    ensures FormValid(r) == FormValid(form)
  {
    form.(address2 := Trim(form.address2))
  }

  // ---------------------------------------------------------------------
  // The saved shipping address
  // ---------------------------------------------------------------------

  /** The body of `/account/api/manage-shipping`: nothing, or an object whose
      keys map to a string or to null. */
  datatype AddressBody = NoData | Fields(values: map<string, Option<string>>)

  function Lookup(values: map<string, Option<string>>, key: string): Option<string> {
    if key in values then values[key] else None
  }

  /** `user?.email || ''` */
  function UserEmail(user: Option<User>): string {
    if user.Some? then user.value.email else ""
  }

  /** The form filled from a saved address; a missing email falls back to
      the account's. */
  function SavedForm(values: map<string, Option<string>>, user: Option<User>): ShippingForm {
    ShippingForm(
      OrDefault(Lookup(values, "full_name"), ""),
      OrDefault(Lookup(values, "email"), UserEmail(user)),
      OrDefault(Lookup(values, "address1"), ""),
      OrDefault(Lookup(values, "address2"), ""),
      OrDefault(Lookup(values, "city"), ""),
      OrDefault(Lookup(values, "state"), ""),
      OrDefault(Lookup(values, "zipcode"), ""))
  }

  /** Every field of the prefilled form comes from the saved value under
      its own name when that is non-empty, and is empty otherwise, except
      the email, which falls back to the account's. */
  lemma SavedFormFields(values: map<string, Option<string>>, user: Option<User>, f: Field)
    ensures var v := Lookup(values, FieldName(f));
      v.Some? && v.value != [] ==> Get(SavedForm(values, user), f) == v.value
    ensures var v := Lookup(values, FieldName(f));
      !(v.Some? && v.value != []) ==> Get(SavedForm(values, user), f) == (if f == Email then UserEmail(user) else "")
  {
  }

  /** A saved address whose required values are not blank prefills a valid
      form, so the buttons can be enabled without typing. */
  lemma CompleteSavedAddressIsValid(values: map<string, Option<string>>, user: Option<User>)
    requires forall f :: Required(f) ==> var v := Lookup(values, FieldName(f)); v.Some? && !IsBlank(v.value)
    ensures FormValid(SavedForm(values, user))
  {
    var fs := [FullName, Email, Address1, City];
    forall i | 0 <= i < 4 ensures !IsBlank(Get(SavedForm(values, user), fs[i])) {
      var f := fs[i];
      assert Required(f);
      var v := Lookup(values, FieldName(f));
      SavedFormFields(values, user, f);
    }
    assert Get(SavedForm(values, user), fs[0]) == SavedForm(values, user).fullName;
    assert Get(SavedForm(values, user), fs[1]) == SavedForm(values, user).email;
    assert Get(SavedForm(values, user), fs[2]) == SavedForm(values, user).address1;
    assert Get(SavedForm(values, user), fs[3]) == SavedForm(values, user).city;
  }

  // ---------------------------------------------------------------------
  // Completing the order
  // ---------------------------------------------------------------------

  /** Where `navigate` sends the browser. */
  datatype Route = ToCart | ToPaymentSuccess(orderId: int) | ToPaymentFailed

  /** The answer of `/payment/api/complete-order`: `success` with the order
      id, a body without `success`, or a thrown error whose body may carry
      `error` and `errors`. */
  datatype CompleteResponse =
    | OrderPlaced(orderId: int)
    | NotPlaced
    | CompleteFailed(error: Option<string>, errors: Option<map<string, Option<string>>>)

  /** The body posted to complete the order. */
  datatype OrderRequest = OrderRequest(cartItems: seq<Line>, shipping: ShippingForm)

  class CheckoutPage {
    var formData: ShippingForm
    var loading: bool
    var submitting: bool
    var error: string
    /** Field errors by input name. The page only ever reads and clears
        one entry at a time, so each is kept as one optional message; a
        server that sends Django's lists of messages per field is not
        modelled message by message. */
    var errors: map<string, Option<string>>
    var formValid: bool
    var route: Option<Route>
    /** `paypalLoaded` */
    var sdkLoaded: bool
    /** The payment buttons: whether they are rendered, whether they are
        enabled, and the form their callbacks see (the one of the render in
        which they were built). */
    var buttonsShown: bool
    var buttonsEnabled: bool
    var buttonsForm: ShippingForm

    /** The validity flag and the buttons agree with the form. */
    predicate Synced()
      reads this
    {
      formValid == FormValid(formData) &&
      (buttonsShown ==> sdkLoaded && buttonsEnabled == FormValid(formData))
    }

    /** The first render, after the validity effect has run once. */
    constructor ()
      ensures formData == EmptyForm && loading && !submitting && error == [] && errors == map[]
      ensures !formValid && route.None? && !sdkLoaded && !buttonsShown && !buttonsEnabled
      ensures Synced()
    {
      formData, loading, submitting, error, errors := EmptyForm, true, false, [], map[];
      formValid, route, sdkLoaded := false, None, false;
      buttonsShown, buttonsEnabled, buttonsForm := false, false, EmptyForm;
    }

    /** The mount effect: an empty cart goes back to the cart page; a
        logged-in user's saved address is fetched (the result says so);
        otherwise loading ends. */
    method Mount(cartItems: seq<Line>, user: Option<User>) returns (fetchesAddress: bool)
      modifies this`route, this`loading
      ensures |cartItems| == 0 ==> route == Some(ToCart) && !fetchesAddress && loading == old(loading)
      ensures |cartItems| > 0 && user.Some? ==> fetchesAddress && route == old(route) && loading == old(loading)
      ensures |cartItems| > 0 && user.None? ==> !fetchesAddress && route == old(route) && !loading
    {
      fetchesAddress := false;
      if |cartItems| == 0 {
        route := Some(ToCart);
        return;
      }
      if user.Some? {
        fetchesAddress := true;
      } else {
        loading := false;
      }
    }

    /** `onInit` of the buttons built in this render: they see the current
        form, start disabled and are enabled at once if the inputs are
        filled in. */
    method BuildButtons()
      modifies this`buttonsShown, this`buttonsEnabled, this`buttonsForm
      ensures buttonsShown && buttonsForm == formData
      ensures buttonsEnabled == FormValid(formData)
    {
      buttonsShown := true;
      buttonsForm := formData;
      buttonsEnabled := false;
      if FormValid(formData) {
        buttonsEnabled := true;
      }
    }

    /** The SDK script has loaded; the buttons are built when the cart has
        items and the page is past its loading screen. While `loading`, the
        page renders no button container, so the effect builds nothing; and
        since `loading` is not among the effect's dependencies, its end does
        not build them either. */
    method SdkReady(cartItems: seq<Line>)
      modifies this`sdkLoaded, this`buttonsShown, this`buttonsEnabled, this`buttonsForm
      ensures sdkLoaded
      ensures !loading && |cartItems| > 0 ==>
        buttonsShown && buttonsForm == formData && buttonsEnabled == FormValid(formData)
      ensures !(!loading && |cartItems| > 0) ==>
        buttonsShown == old(buttonsShown) && buttonsEnabled == old(buttonsEnabled) && buttonsForm == old(buttonsForm)
      ensures old(Synced()) ==> Synced()
    {
      sdkLoaded := true;
      if !loading && |cartItems| > 0 {
        BuildButtons();
      }
    }

    /** What follows a change of `formData` from `before`: the validity
        effect runs when a required value changed, the buttons are rebuilt
        when the validity flipped on a page that shows the button
        container, and, for a change typed into an input,
        the buttons' listener re-checks the inputs. */
    method Settle(before: ShippingForm, cartItems: seq<Line>, typed: bool)
      modifies this`formValid, this`buttonsShown, this`buttonsEnabled, this`buttonsForm
      ensures formValid == (if !SameRequired(before, formData) then FormValid(formData) else old(formValid))
      ensures formValid != old(formValid) && sdkLoaded && !loading && |cartItems| > 0 ==>
        buttonsShown && buttonsForm == formData && buttonsEnabled == FormValid(formData)
      ensures !(formValid != old(formValid) && sdkLoaded && !loading && |cartItems| > 0) ==>
        buttonsShown == old(buttonsShown) && buttonsForm == old(buttonsForm) &&
        buttonsEnabled == if typed && buttonsShown then FormValid(formData) else old(buttonsEnabled)
    {
      var wasValid := formValid;
      if !SameRequired(before, formData) {
        formValid := FormValid(formData);
      }
      if formValid != wasValid && sdkLoaded && !loading && |cartItems| > 0 {
        BuildButtons();
      } else if typed && buttonsShown {
        buttonsEnabled := FormValid(formData);
      }
    }

    /** `fetchShippingAddress`: a non-empty saved address fills every field;
        an empty or failed fetch only sets the email to the account's. */
    method FetchShippingAddress(response: Fetch<AddressBody>, user: Option<User>, cartItems: seq<Line>)
      modifies this`formData, this`loading, this`formValid, this`buttonsShown, this`buttonsEnabled, this`buttonsForm
      ensures !loading
      ensures response.Ok? && response.body.Fields? && |response.body.values| > 0 ==>
        formData == SavedForm(response.body.values, user)
      ensures !(response.Ok? && response.body.Fields? && |response.body.values| > 0) ==>
        formData == old(formData).(email := UserEmail(user))
      ensures old(Synced()) && |cartItems| > 0 ==> Synced()
    {
      var before := formData;
      if response.Ok? && response.body.Fields? && |response.body.values| > 0 {
        formData := SavedForm(response.body.values, user);
      } else {
        formData := formData.(email := UserEmail(user));
      }
      loading := false;
      assert SameRequired(before, formData) ==> FormValid(before) == FormValid(formData);
      Settle(before, cartItems, false);
    }

    /** `handleChange` for input `f`: the value is stored, that field's
        error is cleared, the page error is reset, and the validity flag
        and the buttons end up agreeing with the new form. The handler's own
        `checkFormValidity` call reads the form of the previous render; the
        effect that follows reads the new one. */
    method HandleChange(f: Field, value: string, cartItems: seq<Line>)
      modifies this`formData, this`errors, this`error, this`formValid,
        this`buttonsShown, this`buttonsEnabled, this`buttonsForm
      ensures formData == Set(old(formData), f, value)
      ensures var name := FieldName(f);
        errors == if name in old(errors) && old(errors)[name].Some? && old(errors)[name].value != []
                  then old(errors)[name := None] else old(errors)
      ensures error == []
      ensures formValid == FormValid(formData)
      ensures old(Synced()) && |cartItems| > 0 ==> Synced()
      // the buttons are rebuilt, and see the new form, only when the validity flips
      ensures FormValid(formData) != FormValid(old(formData)) && sdkLoaded && !loading && |cartItems| > 0 ==>
        buttonsShown && buttonsForm == formData
      ensures FormValid(formData) == FormValid(old(formData)) ==>
        buttonsShown == old(buttonsShown) && buttonsForm == old(buttonsForm)
    {
      var before := formData;
      StoreInput(f, value);
      formValid := FormValid(before);
      assert SameRequired(before, formData) ==> FormValid(before) == FormValid(formData);
      Settle(before, cartItems, true);
    }

    /** The state updates of `handleChange` itself: the value is stored,
        that field's error is cleared when it holds a message, and the page
        error is reset. */
    method StoreInput(f: Field, value: string)
      modifies this`formData, this`errors, this`error
      ensures formData == Set(old(formData), f, value)
      ensures var name := FieldName(f);
        errors == if name in old(errors) && old(errors)[name].Some? && old(errors)[name].value != []
                  then old(errors)[name := None] else old(errors)
      ensures error == []
    {
      formData := Set(formData, f, value);
      var name := FieldName(f);
      if name in errors && errors[name].Some? && errors[name].value != [] {
        errors := errors[name := None];
      }
      error := [];
    }

    /** `handleCompleteOrder`, posting `shipping` (the form the calling
        callback sees). A success clears the cart and shows the success page
        with the order id; an error shows the server's message or `Failed to
        complete order`, takes over the field errors and shows the failure
        page. Submitting always ends. */
    method CompleteOrder(cart: CartStore, shipping: ShippingForm, response: CompleteResponse)
      returns (request: OrderRequest)
      requires cart.Valid()
      modifies this`error, this`errors, this`submitting, this`route, cart
      ensures cart.Valid()
      ensures request == OrderRequest(old(cart.items), Cleaned(shipping))
      ensures !submitting
      ensures response.OrderPlaced? ==>
        cart.items == [] && route == Some(ToPaymentSuccess(response.orderId)) && error == [] && errors == map[]
      ensures response.NotPlaced? ==>
        cart.items == old(cart.items) && route == old(route) && error == [] && errors == map[]
      ensures response.CompleteFailed? ==>
        cart.items == old(cart.items) && route == Some(ToPaymentFailed) &&
        error == OrDefault(response.error, "Failed to complete order") &&
        errors == (if response.errors.Some? then response.errors.value else map[])
    {
      error := [];
      errors := map[];
      submitting := true;
      request := OrderRequest(cart.items, Cleaned(shipping));
      match response {
        case OrderPlaced(orderId) =>
          cart.Clear();
          route := Some(ToPaymentSuccess(orderId));
        case NotPlaced =>
        case CompleteFailed(message, fieldErrors) =>
          error := OrDefault(message, "Failed to complete order");
          if fieldErrors.Some? {
            errors := fieldErrors.value;
          }
          route := Some(ToPaymentFailed);
      }
      submitting := false;
    }

    /** `onApprove` as written: the completion posts the form the buttons
        were built with, which is stale when the form was edited after the
        last change of validity. A failed capture shows the failure page. */
    method OnApproveAsWritten(cart: CartStore, captured: bool, response: CompleteResponse)
      returns (request: Option<OrderRequest>)
      requires cart.Valid()
      modifies this`error, this`errors, this`submitting, this`route, cart
      ensures cart.Valid()
      ensures !captured ==> request.None? && route == Some(ToPaymentFailed) && cart.items == old(cart.items)
      ensures captured ==> request == Some(OrderRequest(old(cart.items), Cleaned(buttonsForm)))
    {
      if !captured {
        route := Some(ToPaymentFailed);
        return None;
      }
      var r := CompleteOrder(cart, buttonsForm, response);
      request := Some(r);
    }

    /** `onApprove` posting the form as it stands: after a successful capture
        the order is completed with the current shipping details; a failed
        capture shows the failure page and posts nothing. */
    method OnApprove(cart: CartStore, captured: bool, response: CompleteResponse)
      returns (request: Option<OrderRequest>)
      requires cart.Valid()
      modifies this`error, this`errors, this`submitting, this`route, cart
      ensures cart.Valid()
      ensures !captured ==> request.None? && route == Some(ToPaymentFailed) && cart.items == old(cart.items)
      ensures captured ==> request == Some(OrderRequest(old(cart.items), Cleaned(old(formData))))
      ensures captured && response.OrderPlaced? ==> cart.items == [] && route == Some(ToPaymentSuccess(response.orderId))
      ensures captured && response.CompleteFailed? ==> route == Some(ToPaymentFailed)
    {
      if !captured {
        route := Some(ToPaymentFailed);
        return None;
      }
      var r := CompleteOrder(cart, formData, response);
      request := Some(r);
    }

    /** `onError` of the buttons. */
    method OnError()
      modifies this`route
      ensures route == Some(ToPaymentFailed)
    {
      route := Some(ToPaymentFailed);
    }
  }

  /** A value that begins and ends with a non-whitespace character is kept
      whole by trimming, so it is not blank. */
  lemma FilledValue(s: string)
    requires s != [] && !IsJsWhitespace(s[0]) && !IsJsWhitespace(s[|s| - 1])
    ensures Trim(s) == s && !IsBlank(s)
  {
  }

  /** The stale form: a shopper fills the form so that it turns valid on the
      first letter of the city, then finishes typing the city and pays. The
      buttons were built when the form turned valid, so the posted city is
      that single letter while the form shows the whole name. */
  method StaleShippingExample() returns (shown: string, posted: string)
    ensures shown == "Boston" && posted == "B"
  {
    var p := Product(1, "Card", "card", 500, 3, None, None, None, None);
    var cart := new CartStore(Saved([Line(p, 1)]));
    var page := new CheckoutPage();
    var _ := page.Mount(cart.items, None);
    page.SdkReady(cart.items);
    TypeAllButCity(page, cart.items);
    shown, posted := TypeCityAndPay(page, cart);
  }

  /** The city typed letter by letter into an otherwise complete form, then
      an approved payment. */
  method TypeCityAndPay(page: CheckoutPage, cart: CartStore) returns (shown: string, posted: string)
    requires page.formData == ShippingForm("Ann", "a@b.c", "1 Main St", "", "", "", "")
    requires !page.formValid && page.sdkLoaded && !page.loading && page.buttonsShown
    requires cart.Valid() && |cart.items| > 0
    modifies page, cart
    ensures shown == "Boston" && posted == "B"
  {
    TypeCityLetter(page, cart.items);
    FinishCity(page, cart.items);
    FilledValue("B");
    var request := page.OnApproveAsWritten(cart, true, OrderPlaced(7));
    shown := page.formData.city;
    posted := request.value.shipping.city;
  }

  /** The first letter of the city completes the form: it turns valid and
      the buttons are rebuilt with it. */
  method TypeCityLetter(page: CheckoutPage, cartItems: seq<Line>)
    requires page.formData == ShippingForm("Ann", "a@b.c", "1 Main St", "", "", "", "")
    requires !page.formValid && page.sdkLoaded && !page.loading && page.buttonsShown && |cartItems| > 0
    modifies page
    ensures page.formData == ShippingForm("Ann", "a@b.c", "1 Main St", "", "B", "", "")
    ensures page.formValid && page.buttonsForm.city == "B"
  {
    FilledValue("Ann");
    FilledValue("a@b.c");
    FilledValue("1 Main St");
    FilledValue("B");
    assert IsBlank([]);
    page.HandleChange(City, "B", cartItems);
  }

  /** The rest of the city keeps the form valid, so the buttons keep the
      form they were built with. */
  method FinishCity(page: CheckoutPage, cartItems: seq<Line>)
    requires page.formData == ShippingForm("Ann", "a@b.c", "1 Main St", "", "B", "", "")
    requires page.formValid
    modifies page
    ensures page.formData.city == "Boston" && page.buttonsForm == old(page.buttonsForm)
  {
    FilledValue("Ann");
    FilledValue("a@b.c");
    FilledValue("1 Main St");
    FilledValue("B");
    FilledValue("Boston");
    page.HandleChange(City, "Boston", cartItems);
  }

  /** The first three required fields typed into a fresh form. */
  method TypeAllButCity(page: CheckoutPage, cartItems: seq<Line>)
    requires page.formData == EmptyForm && page.sdkLoaded && page.buttonsShown && !page.formValid
    requires |cartItems| > 0
    modifies page
    ensures page.formData == ShippingForm("Ann", "a@b.c", "1 Main St", "", "", "", "")
    ensures !page.formValid && page.sdkLoaded && page.buttonsShown && page.loading == old(page.loading)
  {
    FilledValue("Ann");
    FilledValue("a@b.c");
    FilledValue("1 Main St");
    TypeRequired(page, FullName, "Ann", cartItems);
    TypeRequired(page, Email, "a@b.c", cartItems);
    TypeRequired(page, Address1, "1 Main St", cartItems);
  }

  /** One required field other than the city typed while the city is still
      empty: the form stays invalid, so the buttons are left as they are. */
  method TypeRequired(page: CheckoutPage, f: Field, value: string, cartItems: seq<Line>)
    requires f != City && page.formData.city == [] && !page.formValid && page.sdkLoaded && page.buttonsShown
    modifies page
    ensures page.formData == Set(old(page.formData), f, value)
    ensures !page.formValid && page.sdkLoaded && page.buttonsShown && page.loading == old(page.loading)
  {
    assert IsBlank([]);
    page.HandleChange(f, value, cartItems);
    assert page.formData.city == [];
  }
}
