/** Values shared by the storefront's request handlers: MongoDB identifiers,
    catalogue products, users, the errors the handlers forward, and the
    decimal rendering that JavaScript template strings apply to integers. */
module Store {

  /** A MongoDB ObjectId, kept as its hexadecimal string form. */
  datatype ObjectId = ObjectId(hex: string) {
    /** `id.toString()`: the string form used for ownership comparisons. */
    function ToString(): string { hex }
  }

  /** A catalogue product. Prices are whole currency units (the source keeps
      JavaScript numbers), so that totals and the x100 scaling are exact. */
  datatype Product = Product(id: ObjectId, title: string, price: int)

  /** The authenticated user attached to a request. */
  datatype User = User(id: ObjectId, email: string)

  /** What the handlers forward to the error middleware. The database and
      provider cases carry the failure's text: the source wraps such a
      failure as `new Error(err)`, whose message is `String(err)`. */
  datatype Error =
    | NoOrderFound
    | Unauthorized
    | DatabaseError(reason: string)
    | PaymentError(reason: string)
  {
    /** The message of the `Error` object the handler forwards. */
    function Message(): string
    {
      match this
      case NoOrderFound => "No order found."
      case Unauthorized => "Unauthorized"
      case DatabaseError(reason) => reason
      case PaymentError(reason) => reason
    }
  }

  datatype Result<T> = Success(value: T) | Failure(error: Error)

  datatype Option<T> = None | Some(value: T)

  /** An answer of the database or of the payment provider to one request. */
  datatype Reply = Ok | Rejected(reason: string)

  predicate IsDigit(c: char) { '0' <= c <= '9' }

  function DigitChar(d: nat): (c: char)
    requires d < 10
    ensures IsDigit(c) && DigitValue(c) == d
  {
    "0123456789"[d]
  }

  /** The number a string of decimal digits denotes. */
  function DecimalValue(s: string): nat
    requires forall i :: 0 <= i < |s| ==> IsDigit(s[i])
  {
    if s == [] then 0
    else DecimalValue(s[..|s| - 1]) * 10 + DigitValue(s[|s| - 1])
  }

  function DigitValue(c: char): nat
    requires IsDigit(c)
  {
    c as int - '0' as int
  }

  /** How a template string such as `${n}` renders a non-negative integer. */
  function NatToString(n: nat): (s: string)
    ensures |s| >= 1
    ensures forall i :: 0 <= i < |s| ==> IsDigit(s[i])
    ensures |s| > 1 ==> s[0] != '0'
  {
    if n < 10 then [DigitChar(n)] else NatToString(n / 10) + [DigitChar(n % 10)]
  }

  /** How a template string renders any integer. */
  function IntToString(n: int): string
  {
    if n < 0 then "-" + NatToString(-n) else NatToString(n)
  }

  /** The rendering is faithful: the digits it prints denote the number. */
  lemma {:induction false} NatToStringDenotes(n: nat)
    ensures DecimalValue(NatToString(n)) == n
  {
    if n >= 10 {
      var s := NatToString(n / 10);
      NatToStringDenotes(n / 10);
      assert (s + [DigitChar(n % 10)])[..|s|] == s;
    }
  }
}
