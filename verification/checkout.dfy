/** The customer form and checkout validation, which the ordering page (App.tsx) and the cart
    panel (components/Cart.tsx) implement identically: the phone field keeps digits only and
    at most ten of them, switching to take-out clears the table number, and checkout reports
    the first failing check or emits the order data. */
module Checkout {
  import opened Basics
  import opened Text
  import opened Types
  import opened CartEngine

  datatype Field = Name | Phone | TableNumber

  /** 您的購物車是空的, 請填寫您的姓名, 請填寫您的電話, 請輸入有效的手機號碼（10位數字）. */
  datatype CheckoutError = EmptyCart | BlankName | BlankPhone | BadPhone

  /** `handleCustomerInfoChange` on the form's record: a phone value is reduced to its digits
      and stored only if at most ten remain; any other field is stored verbatim. */
  function ChangeInfo(info: CustomerInfo, field: Field, value: string): (r: CustomerInfo)
    ensures field == Phone && |DigitsOnly(value)| <= 10 ==> r == info.(phone := DigitsOnly(value))
    ensures field == Phone && |DigitsOnly(value)| > 10 ==> r == info
    ensures field == Name ==> r == info.(name := value)
    ensures field == TableNumber ==> r == info.(tableNumber := value)
  {
    match field
    case Phone =>
      var digits := DigitsOnly(value);
      if |digits| <= 10 then info.(phone := digits) else info
    case Name => info.(name := value)
    case TableNumber => info.(tableNumber := value)
  }

  /** The phone number the form can hold: at most ten ASCII digits. */
  predicate PhoneWellFormed(info: CustomerInfo)
  {
    |info.phone| <= 10 && forall c :: c in info.phone ==> IsDigit(c)
  }

  /** Whatever is typed, the form's phone stays at most ten digits; typing a well-formed
      number stores it unchanged. */
  lemma ChangeKeepsPhoneWellFormed(info: CustomerInfo, field: Field, value: string)
    requires PhoneWellFormed(info)
    ensures PhoneWellFormed(ChangeInfo(info, field, value))
    ensures field == Phone && |value| <= 10 && (forall c :: c in value ==> IsDigit(c)) ==>
              ChangeInfo(info, field, value).phone == value
  {
    if field == Phone && forall c :: c in value ==> IsDigit(c) {
      DigitsOnlyKeepsDigits(value);
    }
  }

  /** The order-type effect: choosing take-out clears the table number; nothing else changes. */
  function ApplyOrderType(info: CustomerInfo, orderType: OrderType): (r: CustomerInfo)
    ensures r.name == info.name && r.phone == info.phone
    ensures r.tableNumber == if orderType == TakeOut then "" else info.tableNumber
  {
    if orderType == TakeOut then info.(tableNumber := "") else info
  }

  /** `handleCheckout`: the checks run in a fixed order and the first failure is reported;
      on success the order data carries the lines, their total, the customer and the order
      type. */
  function Validate(lines: seq<CartItem>, info: CustomerInfo, orderType: OrderType)
    : (r: Result<OrderData, CheckoutError>)
    ensures r.Success? <==>
              |lines| > 0 && !IsBlank(info.name) && !IsBlank(info.phone) && IsTenDigits(info.phone)
    ensures r.Success? ==> r.value == OrderData(lines, TotalPrice(lines), info, orderType)
    ensures r == Failure(EmptyCart) <==> |lines| == 0
    ensures r == Failure(BlankName) <==> |lines| > 0 && IsBlank(info.name)
    ensures r == Failure(BlankPhone) <==> |lines| > 0 && !IsBlank(info.name) && IsBlank(info.phone)
  {
    if |lines| == 0 then Failure(EmptyCart)
    else if IsBlank(info.name) then Failure(BlankName)
    else if IsBlank(info.phone) then Failure(BlankPhone)
    else if !IsTenDigits(info.phone) then Failure(BadPhone)
    else Success(OrderData(lines, TotalPrice(lines), info, orderType))
  }

  /** A phone that is blank is not ten digits, so the blank check only changes which message
      is shown; a ten-digit phone passes both phone checks. */
  lemma PhoneChecksAgree(phone: string)
    ensures IsTenDigits(phone) ==> !IsBlank(phone)
  {
    if IsTenDigits(phone) {
      assert phone[0] in phone;
      assert IsDigit(phone[0]);
    }
  }

  /** The customer form of the checkout panel. */
  class CheckoutForm {
    var info: CustomerInfo
    var orderType: OrderType
    var validationError: Option<CheckoutError>

    constructor ()
      ensures info == CustomerInfo("", "", "") && orderType == DineIn && validationError == None
    {
      info := CustomerInfo("", "", "");
      orderType := DineIn;
      validationError := None;
    }

    /** `handleCustomerInfoChange`: any edit clears the validation message. */
    method Change(field: Field, value: string)
      modifies this
      ensures info == ChangeInfo(old(info), field, value)
      ensures validationError == None && orderType == old(orderType)
    {
      if validationError.Some? {
        validationError := None;
      }
      if field == Phone {
        var digits := DigitsOnly(value);
        if |digits| <= 10 {
          info := info.(phone := digits);
        }
      } else if field == Name {
        info := info.(name := value);
      } else {
        info := info.(tableNumber := value);
      }
    }

    /** `setOrderType` followed by the effect that runs when the order type changes. */
    method SetOrderType(t: OrderType)
      modifies this
      ensures orderType == t && validationError == old(validationError)
      ensures info == if t != old(orderType) then ApplyOrderType(old(info), t) else old(info)
    {
      var changed := t != orderType;
      orderType := t;
      if changed && orderType == TakeOut {
        info := info.(tableNumber := "");
      }
    }

    /** `handleCheckout`: records the failure, or clears the message and returns the order. */
    method Submit(lines: seq<CartItem>) returns (r: Result<OrderData, CheckoutError>)
      modifies this
      ensures r == Validate(lines, old(info), old(orderType))
      ensures validationError == if r.Failure? then Some(r.error) else None
      ensures info == old(info) && orderType == old(orderType)
    {
      validationError := None;
      if |lines| == 0 {
        validationError := Some(EmptyCart);
        return Failure(EmptyCart);
      }
      if IsBlank(info.name) {
        validationError := Some(BlankName);
        return Failure(BlankName);
      }
      if IsBlank(info.phone) {
        validationError := Some(BlankPhone);
        return Failure(BlankPhone);
      }
      if !IsTenDigits(info.phone) {
        validationError := Some(BadPhone);
        return Failure(BadPhone);
      }
      r := Success(OrderData(lines, TotalPrice(lines), info, orderType));
    }
  }
}
