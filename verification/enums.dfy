/** The library's enumerations: the `[Flags]` scope set, the currency codes
    with their display names, and the alert kinds. A C# enum holds any value
    of its underlying `int`, so CurrencyCode and AlertType are 32-bit
    integers with named members rather than closed datatypes. */
module Enums {
  import opened Wrappers
  import opened Conversions

  /** A `TwitchScope` value: any combination of the flag bits. */
  type TwitchScope = bv32

  const DonationsRead: TwitchScope := 1
  const DonationsCreate: TwitchScope := 2
  const AlertsCreate: TwitchScope := 4
  const LegacyToken: TwitchScope := 8

  /** `Enum.HasFlag`: every bit of the flag is set in the value. */
  predicate HasFlag(value: TwitchScope, flag: TwitchScope) {
    value & flag == flag
  }

  newtype CurrencyCode = x: int | -0x8000_0000 <= x < 0x8000_0000

  const AUD: CurrencyCode := 0
  const USD: CurrencyCode := 21

  /** The currency members in declaration order (so member `k` has value
      `k`): its symbol and the display name its documentation gives. */
  const Currencies: seq<(string, string)> := [
    ("AUD", "Austrailian Dollar"),
    ("BRL", "Brazilian Real"),
    ("CAD", "Canadian Dollar"),
    ("CZK", "Czech Koruna"),
    ("DKK", "Danish Krone"),
    ("EUR", "Euro"),
    ("HKD", "Hong Kong Dollar"),
    ("ILS", "Israeli New Sheqel"),
    ("MYR", "Malaysian Ringgit"),
    ("MXN", "Mexican Peso"),
    ("NOK", "Norwegian Krone"),
    ("NZD", "New Zealand Dollar"),
    ("PHP", "Philippine Peso"),
    ("PLN", "Polish Zloty"),
    ("GBP", "Pound Sterling"),
    ("RUB", "Russian Ruble"),
    ("SGD", "Singapore Dollar"),
    ("SEK", "Swedish Krona"),
    ("CHF", "Swiss Franc"),
    ("THB", "Thai Baht"),
    ("TRY", "Turkish Lira"),
    ("USD", "US Dollar")
  ]

  predicate IsCurrencyMember(code: CurrencyCode) {
    0 <= code as int < |Currencies|
  }

  /** The display-name switch: every named member has its documented,
      non-empty name; any other value falls to the default branch. */
  function CurrencyCodeToString(code: CurrencyCode): (name: string)
    ensures IsCurrencyMember(code) ==> name == Currencies[code as int].1
    ensures name != "" <==> IsCurrencyMember(code)
  {
    match code
    case 0 => "Austrailian Dollar"
    case 1 => "Brazilian Real"
    case 2 => "Canadian Dollar"
    case 3 => "Czech Koruna"
    case 4 => "Danish Krone"
    case 5 => "Euro"
    case 6 => "Hong Kong Dollar"
    case 7 => "Israeli New Sheqel"
    case 8 => "Malaysian Ringgit"
    case 9 => "Mexican Peso"
    case 10 => "Norwegian Krone"
    case 11 => "New Zealand Dollar"
    case 12 => "Philippine Peso"
    case 13 => "Polish Zloty"
    case 14 => "Pound Sterling"
    case 15 => "Russian Ruble"
    case 16 => "Singapore Dollar"
    case 17 => "Swedish Krona"
    case 18 => "Swiss Franc"
    case 19 => "Thai Baht"
    case 20 => "Turkish Lira"
    case 21 => "US Dollar"
    case _ => ""
  }

  /** No two currencies share a display name, so the name identifies the member. */
  lemma CurrencyNamesDistinct(a: CurrencyCode, b: CurrencyCode)
    requires IsCurrencyMember(a) && IsCurrencyMember(b)
    requires CurrencyCodeToString(a) == CurrencyCodeToString(b)
    ensures a == b
  {
  }

  /** `CurrencyCode.ToString()`, the wire spelling: the member's symbol, or
      the decimal value for a value no member names. */
  function CurrencyWireName(code: CurrencyCode): (symbol: string)
    ensures IsCurrencyMember(code) ==> symbol == Currencies[code as int].0 && |symbol| == 3
    ensures !IsCurrencyMember(code) ==> symbol == IntToString(code as int)
  {
    match code
    case 0 => "AUD"
    case 1 => "BRL"
    case 2 => "CAD"
    case 3 => "CZK"
    case 4 => "DKK"
    case 5 => "EUR"
    case 6 => "HKD"
    case 7 => "ILS"
    case 8 => "MYR"
    case 9 => "MXN"
    case 10 => "NOK"
    case 11 => "NZD"
    case 12 => "PHP"
    case 13 => "PLN"
    case 14 => "GBP"
    case 15 => "RUB"
    case 16 => "SGD"
    case 17 => "SEK"
    case 18 => "CHF"
    case 19 => "THB"
    case 20 => "TRY"
    case 21 => "USD"
    case _ => IntToString(code as int)
  }

  newtype AlertType = x: int | -0x8000_0000 <= x < 0x8000_0000

  const Follow: AlertType := 0
  const Subscription: AlertType := 1
  const Donation: AlertType := 2
  const Host: AlertType := 3

  const AlertTypes: seq<string> := ["Follow", "Subscription", "Donation", "Host"]

  /** `AlertType.ToString()`, the wire spelling of an alert kind. */
  function AlertWireName(kind: AlertType): (symbol: string)
    ensures 0 <= kind as int < 4 ==> symbol == AlertTypes[kind as int]
    ensures !(0 <= kind as int < 4) ==> symbol == IntToString(kind as int)
  {
    match kind
    case 0 => "Follow"
    case 1 => "Subscription"
    case 2 => "Donation"
    case 3 => "Host"
    case _ => IntToString(kind as int)
  }

  /** Printed numbers never look like a member's name: they start with a
      minus sign or a digit. */
  lemma IntToStringStartsNumeric(n: int)
    ensures var s := IntToString(n); s[0] == '-' || IsDigit(s[0])
  {
  }

  /** Distinct alert kinds go on the wire under distinct names. */
  lemma AlertWireNameInjective(a: AlertType, b: AlertType)
    requires AlertWireName(a) == AlertWireName(b)
    ensures a == b
  {
    IntToStringStartsNumeric(a as int);
    IntToStringStartsNumeric(b as int);
    if !(0 <= a as int < 4) && !(0 <= b as int < 4) {
      ParseIntToString(a as int32);
      ParseIntToString(b as int32);
    }
  }

  /** An unnamed alert kind is sent as text the server reads back as the
      same number. */
  lemma AlertWireNameParses(kind: AlertType)
    requires !(0 <= kind as int < 4)
    ensures ParseInt32(AlertWireName(kind)) == Success(kind as int32)
  {
    ParseIntToString(kind as int32);
  }

  /** No two currency members share a symbol. */
  lemma CurrencySymbolsDistinct(i: int, j: int)
    requires 0 <= i < |Currencies| && 0 <= j < |Currencies|
    requires Currencies[i].0 == Currencies[j].0
    ensures i == j
  {
  }

  /** Every currency symbol starts with a capital letter. */
  lemma CurrencySymbolLetter(i: int)
    requires 0 <= i < |Currencies|
    ensures |Currencies[i].0| == 3 && 'A' <= Currencies[i].0[0] <= 'Z'
  {
  }

  /** Distinct currency codes go on the wire under distinct names. */
  lemma CurrencyWireNameInjective(a: CurrencyCode, b: CurrencyCode)
    requires CurrencyWireName(a) == CurrencyWireName(b)
    ensures a == b
  {
    IntToStringStartsNumeric(a as int);
    IntToStringStartsNumeric(b as int);
    if !IsCurrencyMember(a) && !IsCurrencyMember(b) {
      ParseIntToString(a as int32);
      ParseIntToString(b as int32);
    } else if IsCurrencyMember(a) && IsCurrencyMember(b) {
      CurrencySymbolsDistinct(a as int, b as int);
    } else {
      var named := if IsCurrencyMember(a) then a else b;
      CurrencySymbolLetter(named as int);
    }
  }

  /** An unnamed currency code is sent as text the server reads back as
      the same number. */
  lemma CurrencyWireNameParses(code: CurrencyCode)
    requires !IsCurrencyMember(code)
    ensures ParseInt32(CurrencyWireName(code)) == Success(code as int32)
  {
    ParseIntToString(code as int32);
  }
}
