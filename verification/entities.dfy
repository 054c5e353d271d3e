/** The records the application keeps: services of the city directory,
    citizen accounts, complaints and support tickets, as the pages build
    them and as they sit in browser storage after JSON encoding.
 */
module Entities {
  import opened Base

  /** A municipal service. `category` and `status` are the strings the
      forms offer ("healthcare", …, "operational", …); `phone` and `hours`
      may be empty; `image` is absent on services added from the admin form. */
  datatype Service = Service(
    id: int,
    name: string,
    category: string,
    address: string,
    phone: string,
    hours: string,
    description: string,
    status: string,
    rating: real,
    image: Option<string>)

  /** A citizen account; `email` is meant to be unique among stored users. */
  datatype User = User(id: string, name: string, email: string, password: string)

  /** A complaint. `serviceId` is the string value of the service picker
      (the decimal text of a service id); `userId` is absent for guests. */
  datatype Complaint = Complaint(
    id: string,
    serviceId: string,
    name: string,
    contact: string,
    priority: string,
    description: string,
    status: string,
    createdAt: string,
    userId: Option<string>)

  /** A support ticket from the contact form. */
  datatype Ticket = Ticket(
    id: string,
    name: string,
    email: string,
    topic: string,
    message: string,
    createdAt: string)

  function DigitChar(d: nat): (c: char)
    requires d < 10
    ensures '0' <= c <= '9'
  {
    ('0' as int + d) as char
  }

  predicate AllDigits(s: string) {
    forall i :: 0 <= i < |s| ==> '0' <= s[i] <= '9'
  }

  /** The number a string of decimal digits denotes. */
  function DecimalValue(s: string): nat
    requires AllDigits(s)
  {
    if s == [] then 0
    else DecimalValue(s[..|s| - 1]) * 10 + (s[|s| - 1] as int - '0' as int)
  }

  /** Decimal digits of `n`, most significant first, with no leading zero;
      they denote `n`. */
  function Digits(n: nat): (s: string)
    ensures |s| > 0
    ensures AllDigits(s)
    ensures n > 0 ==> s[0] != '0'
    ensures s[0] == '0' ==> s == "0"
    ensures DecimalValue(s) == n
  {
    if n < 10 then [DigitChar(n)]
    else
      var init := Digits(n / 10);
      var s := init + [DigitChar(n % 10)];
      assert s[..|s| - 1] == init;
      s
  }

  /** The object key a JavaScript number becomes when it indexes an object
      (`acc[service.id]`): its decimal text, with a minus sign when negative.
      The same text is what the service picker puts into `serviceId`. */
  function PropertyKey(id: int): (k: string)
    ensures |k| > 0
    ensures id >= 0 ==> AllDigits(k) && DecimalValue(k) == id && (k[0] == '0' ==> k == "0")
    ensures id < 0 ==> |k| >= 2 && k[0] == '-' && k[1] != '0' &&
                       AllDigits(k[1..]) && DecimalValue(k[1..]) == -id
  {
    if id < 0 then
      var k := "-" + Digits(-id);
      assert k[1..] == Digits(-id);
      k
    else Digits(id)
  }

  /** Distinct service ids give distinct object keys. */
  lemma PropertyKeyInjective(a: int, b: int)
    requires PropertyKey(a) == PropertyKey(b)
    ensures a == b
  {
  }
}
