/**
  Package paypal: sending money is guarded by five checks made in a fixed
  order. The e-mail check is the regular expression
  `^[a-z0-9._%+\-]+@[a-z0-9.\-]+\.[a-z]{2,4}$`, restated here as the set of
  strings `L@D.T` it matches (`IsMailAddress`) and as a direct check
  (`MatchMail`) proved to accept exactly that set.
*/
module Paypal {
  import opened Wrappers

  /** A character of `[a-z0-9._%+-]`, the part before the `@`. */
  predicate IsLocalChar(c: char)
  {
    ('a' <= c <= 'z') || ('0' <= c <= '9') || c == '.' || c == '_' || c == '%' || c == '+' || c == '-'
  }

  /** A character of `[a-z0-9.-]`, the domain before the final dot. */
  predicate IsDomainChar(c: char)
  {
    ('a' <= c <= 'z') || ('0' <= c <= '9') || c == '.' || c == '-'
  }

  /** A character of `[a-z]`, the top-level domain. */
  predicate IsLower(c: char)
  {
    'a' <= c <= 'z'
  }

  predicate AllLocal(s: string)
  {
    forall k :: 0 <= k < |s| ==> IsLocalChar(s[k])
  }

  predicate AllDomain(s: string)
  {
    forall k :: 0 <= k < |s| ==> IsDomainChar(s[k])
  }

  predicate AllLower(s: string)
  {
    forall k :: 0 <= k < |s| ==> IsLower(s[k])
  }

  /** The three parts `L`, `D` and `T` of an address `L@D.T` are well formed. */
  predicate AddressParts(local: string, domain: string, tld: string)
  {
    && |local| >= 1 && AllLocal(local)
    && |domain| >= 1 && AllDomain(domain)
    && 2 <= |tld| <= 4 && AllLower(tld)
  }

  /** The language of the e-mail regular expression: strings `L@D.T` with well-formed parts. */
  ghost predicate IsMailAddress(s: string)
  {
    exists local, domain, tld :: AddressParts(local, domain, tld) && s == local + "@" + domain + "." + tld
  }

  /** Position of the first `x` in `s`, or `|s|` when there is none. */
  function IndexOf(s: string, x: char): (i: nat)
    ensures i <= |s|
    ensures i < |s| ==> s[i] == x
    ensures forall k :: 0 <= k < i ==> s[k] != x
  {
    if s == [] then 0
    else if s[0] == x then 0
    else 1 + IndexOf(s[1..], x)
  }

  /** Position of the last `x` in `s`, or `-1` when there is none. */
  function LastIndexOf(s: string, x: char): (i: int)
    ensures -1 <= i < |s|
    ensures 0 <= i ==> s[i] == x
    ensures forall k :: i < k < |s| ==> s[k] != x
  {
    if s == [] then -1
    else if s[|s| - 1] == x then |s| - 1
    else LastIndexOf(s[..|s| - 1], x)
  }

  /**
    `mailRegexp.MatchString(s)`: the `@` must be the first one (no part
    admits `@`) and the dot before the top-level domain the last one (the
    top-level domain admits no dot).
  */
  function MatchMail(s: string): (b: bool)
    ensures b <==> IsMailAddress(s)
  {
    var at := IndexOf(s, '@');
    var dot := LastIndexOf(s, '.');
    var b := 0 < at && at + 1 < dot && AddressParts(s[..at], s[at + 1..dot], s[dot + 1..]);
    if b then
      assert s == s[..at] + "@" + s[at + 1..dot] + "." + s[dot + 1..];
      b
    else
      MatchMailComplete(s);
      b
  }

  /** In `L@D.T` the first `@` ends `L` and the last dot starts `T`. */
  lemma LocateParts(local: string, domain: string, tld: string)
    requires AddressParts(local, domain, tld)
    ensures var s, n := local + "@" + domain + "." + tld, |local|;
      && IndexOf(s, '@') == n && LastIndexOf(s, '.') == n + 1 + |domain|
      && s[..n] == local && s[n + 1..n + 1 + |domain|] == domain && s[n + 2 + |domain|..] == tld
  {
    var s := local + "@" + domain + "." + tld;
    var n := |local|;
    var m := n + 1 + |domain|;
    assert s[..n] == local;
    assert s[n + 1..m] == domain;
    assert s[m + 1..] == tld;
    assert s[n] == '@' && s[m] == '.';
  }

  /** Every string in the language passes the direct check. */
  lemma MatchMailComplete(s: string)
    ensures IsMailAddress(s) ==>
      var at, dot := IndexOf(s, '@'), LastIndexOf(s, '.');
      0 < at && at + 1 < dot && AddressParts(s[..at], s[at + 1..dot], s[dot + 1..])
  {
    if IsMailAddress(s) {
      var local, domain, tld :| AddressParts(local, domain, tld) && s == local + "@" + domain + "." + tld;
      LocateParts(local, domain, tld);
    }
  }

  /**
    An address read position by position: local characters up to the first
    `@`, domain characters up to the last dot, then lower-case letters.
  */
  lemma MailPositions(s: string, k: int)
    requires IsMailAddress(s) && 0 <= k < |s|
    ensures var at, dot := IndexOf(s, '@'), LastIndexOf(s, '.');
      && (k < at ==> IsLocalChar(s[k]))
      && (k == at ==> s[k] == '@')
      && (at < k < dot ==> IsDomainChar(s[k]))
      && (k == dot ==> s[k] == '.')
      && (dot < k ==> IsLower(s[k]))
  {
    MatchMailComplete(s);
    var at, dot := IndexOf(s, '@'), LastIndexOf(s, '.');
    if k < at {
      assert s[k] == s[..at][k];
    } else if at < k < dot {
      assert s[k] == s[at + 1..dot][k - at - 1];
    } else if dot < k {
      assert s[k] == s[dot + 1..][k - dot - 1];
    }
  }

  /** An address holds only characters of `[a-z0-9._%+-]` and `@`: no upper-case letter. */
  lemma MailAlphabet(s: string, k: int)
    requires IsMailAddress(s) && 0 <= k < |s|
    ensures IsLocalChar(s[k]) || s[k] == '@'
    ensures !('A' <= s[k] <= 'Z')
  {
    MailPositions(s, k);
  }

  /** An address holds exactly one `@`. */
  lemma MailSingleAt(s: string, i: int, j: int)
    requires IsMailAddress(s)
    requires 0 <= i < |s| && 0 <= j < |s| && s[i] == '@' && s[j] == '@'
    ensures i == j
  {
    MailPositions(s, i);
    MailPositions(s, j);
  }

  /** Money of a PayPal transaction. */
  datatype Money = Money(Amount: real, Currency: string)

  /** The errors `Payment.Send` returns, in the order it checks them. */
  datatype SendError =
    | InvalidSender
    | InvalidRecipient
    | MoneyMissing
    | NonPositiveAmount
    | CurrencyMissing
  {
    /** The Go error text. */
    function Message(): string
    {
      match this
      case InvalidSender => "Invalid sender email address"
      case InvalidRecipient => "Invalid recipient email address"
      case MoneyMissing => "The money must be provided"
      case NonPositiveAmount => "The amount cannot be negative"
      case CurrencyMissing => "The currency must be provided"
    }
  }

  /** Go `Payment`: the API key plays no part in `Send`. */
  datatype Payment = Payment(APIKey: string)
  {
    /**
      `Payment.Send`: the sender's address, the recipient's address, the
      presence of money, a positive amount and a currency, checked in that
      order; the first failing check decides the error.
    */
    function Send(senderEmail: string, recipientEmail: string, money: Option<Money>): (err: Option<SendError>)
      ensures err == Some(InvalidSender) <==> !IsMailAddress(senderEmail)
      ensures err == Some(InvalidRecipient) <==> IsMailAddress(senderEmail) && !IsMailAddress(recipientEmail)
      ensures err == Some(MoneyMissing) <==>
        IsMailAddress(senderEmail) && IsMailAddress(recipientEmail) && money.None?
      ensures err == Some(NonPositiveAmount) <==>
        IsMailAddress(senderEmail) && IsMailAddress(recipientEmail) && money.Some? && money.value.Amount <= 0.0
      ensures err == Some(CurrencyMissing) <==>
        IsMailAddress(senderEmail) && IsMailAddress(recipientEmail) && money.Some? && money.value.Amount > 0.0
        && money.value.Currency == ""
      ensures err.None? <==>
        IsMailAddress(senderEmail) && IsMailAddress(recipientEmail) && money.Some? && money.value.Amount > 0.0
        && money.value.Currency != ""
    {
      if !MatchMail(senderEmail) then Some(InvalidSender)
      else if !MatchMail(recipientEmail) then Some(InvalidRecipient)
      else if money.None? then Some(MoneyMissing)
      else if money.value.Amount <= 0.0 then Some(NonPositiveAmount)
      else if money.value.Currency == "" then Some(CurrencyMissing)
      else None
    }
  }

  /** A sender address with an upper-case letter is refused before anything else is looked at. */
  lemma UppercaseSenderRejected(p: Payment, sender: string, recipient: string, money: Option<Money>, k: int)
    requires 0 <= k < |sender| && 'A' <= sender[k] <= 'Z'
    ensures p.Send(sender, recipient, money) == Some(InvalidSender)
  {
    if IsMailAddress(sender) {
      MailAlphabet(sender, k);
    }
  }

  /** The demo's addresses are accepted; an upper-case letter or a second `@` is not. */
  lemma DemoAddresses()
    ensures IsMailAddress("shop@example.com")
    ensures IsMailAddress("ben.johnson@example.com")
    ensures !IsMailAddress("Shop@example.com")
    ensures !IsMailAddress("shop@shop@example.com")
  {
    assert AddressParts("shop", "example", "com");
    assert "shop@example.com" == "shop" + "@" + "example" + "." + "com";
    assert AddressParts("ben.johnson", "example", "com");
    assert "ben.johnson@example.com" == "ben.johnson" + "@" + "example" + "." + "com";
    if IsMailAddress("Shop@example.com") {
      MailAlphabet("Shop@example.com", 0);
    }
    if IsMailAddress("shop@shop@example.com") {
      MailSingleAt("shop@shop@example.com", 4, 9);
    }
  }

  /** The demo's checkout through PayPal: 1600 USD from a customer to the shop is sent. */
  lemma DemoCheckout(p: Payment)
    ensures p.Send("ben.johnson@example.com", "shop@example.com", Some(Money(1600.0, "USD"))).None?
  {
    DemoAddresses();
  }
}
