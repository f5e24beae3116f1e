/** How `url.Parse` reads a key printed as it stands into a URL, and which keys it reads back unchanged. */
module UrlPath {
  import opened Contract

  predicate Control(c: char) {
    c < ' ' || c == 0x7f as char
  }

  /** Text that means itself in the path of a URL. */
  predicate Plain(text: string) {
    forall c | c in text :: !Control(c) && c !in "%?#"
  }

  function HexValue(c: char): (v: Option<nat>)
    ensures v.Some? ==> v.value < 16
  {
    if '0' <= c <= '9' then Some(c as int - '0' as int)
    else if 'a' <= c <= 'f' then Some(10 + c as int - 'a' as int)
    else if 'A' <= c <= 'F' then Some(10 + c as int - 'A' as int)
    else None
  }

  /** The path named by a URL that ends in this text: up to the query or the fragment, with its escapes decoded. */
  function Named(text: string): Option<string> {
    if text == "" || text[0] in "?#" then Some("")
    else if Control(text[0]) then None
    else if text[0] != '%' then Behind(text[0], Named(text[1..]))
    else if |text| < 3 || HexValue(text[1]).None? || HexValue(text[2]).None? then None
    else Behind((16 * HexValue(text[1]).value + HexValue(text[2]).value) as char, Named(text[3..]))
  }

  function Behind(c: char, rest: Option<string>): Option<string> {
    if rest.None? then None else Some([c] + rest.value)
  }

  /** The sixteen digits, in either case, and no others. */
  lemma HexDigits(k: nat)
    requires k < 16
    ensures HexValue("0123456789abcdef"[k]) == Some(k) && HexValue("0123456789ABCDEF"[k]) == Some(k)
    ensures forall c | HexValue(c) == Some(k) :: c == "0123456789abcdef"[k] || c == "0123456789ABCDEF"[k]
  {
  }

  /** An escape names the byte its digits spell; a sign without two digits names nothing. */
  lemma EscapeReads(high: char, low: char, rest: string)
    ensures
      Named(['%', high, low] + rest) ==
        if HexValue(high).Some? && HexValue(low).Some? && Named(rest).Some?
        then Some([(16 * HexValue(high).value + HexValue(low).value) as char] + Named(rest).value) else None
    ensures Named("%") == None && Named(['%', high]) == None
    ensures Named([high]) == None <==> high as int < 32 || high as int == 127 || high == '%'
  {
    assert [high][1..] == "";
    assert (['%', high, low] + rest)[3..] == rest;
  }

  /** Exactly the plain texts are read back as they were printed; reading any other one loses characters. */
  lemma {:induction false} PlainIsItself(text: string)
    ensures Named(text) == Some(text) <==> Plain(text)
    ensures Named(text).Some? && !Plain(text) ==> |Named(text).value| < |text|
  {
    if text != "" {
      assert text == [text[0]] + text[1..];
      if text[0] == '%' {
        if |text| >= 3 { PlainIsItself(text[3..]); }
      } else {
        PlainIsItself(text[1..]);
      }
    }
  }
}
