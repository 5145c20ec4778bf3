/**
 * `format_data_for_qr` of the QR code service: the text a code is generated
 * from, for each kind of data, or the 400 error the request is refused with.
 * The two regular expressions it matches with are written out as
 * recognisers over the characters of the input, with Python `re` semantics
 * (`$` also matches before one final newline, `\s` and `\d` are the Unicode
 * classes).
 */
module Qr {
  import opened Wrappers
  import opened Text

  /** The 400 errors, one per kind that validates its data. */
  datatype QrError = InvalidEmail | InvalidPhone | InvalidUrl | InvalidWifi

  /** The `detail` each error is raised with. */
  function Detail(e: QrError): string {
    match e
    case InvalidEmail => "Invalid email format"
    case InvalidPhone => "Invalid phone number"
    case InvalidUrl => "Invalid URL format"
    case InvalidWifi => "WiFi format: SSID,Password,Security"
  }

  // ----- email -----

  /** `[a-zA-Z0-9._%+-]` */
  predicate IsLocalChar(c: char) {
    IsAsciiLetter(c) || IsAsciiDigit(c) || c == '.' || c == '_' || c == '%' || c == '+' || c == '-'
  }

  /** `[a-zA-Z0-9.-]` */
  predicate IsDomainChar(c: char) {
    IsAsciiLetter(c) || IsAsciiDigit(c) || c == '.' || c == '-'
  }

  /**
   * One way `s` can match `[a-zA-Z0-9._%+-]+@[a-zA-Z0-9.-]+\.[a-zA-Z]{2,}` in
   * full: the `@` at `at`, the escaped `.` at `dot`.
   */
  predicate EmailSplit(s: string, at: int, dot: int) {
    0 < at && at + 1 < dot && dot + 3 <= |s| && s[at] == '@' && s[dot] == '.'
    && (forall k :: 0 <= k < at ==> IsLocalChar(s[k]))
    && (forall k :: at < k < dot ==> IsDomainChar(s[k]))
    && (forall k :: dot < k < |s| ==> IsAsciiLetter(s[k]))
  }

  /** The language of the pattern without its anchors. */
  ghost predicate EmailBody(s: string) {
    exists at, dot :: EmailSplit(s, at, dot)
  }

  /** What `re.match` with `^…$` accepts: the body, possibly followed by one newline. */
  ghost predicate EmailPattern(s: string) {
    EmailBody(s) || (|s| > 0 && s[|s| - 1] == '\n' && EmailBody(s[..|s| - 1]))
  }

  /**
   * The body, decided without search: the `@` can only be the first one (the
   * local part has none) and the `.` only the last one (the letters after it
   * have none).
   */
  function IsEmailBody(s: string): bool {
    match IndexOf(s, '@')
    case None => false
    case Some(at) =>
      match LastIndexOf(s[at + 1..], '.')
      case None => false
      case Some(d) =>
        var dot := at + 1 + d;
        0 < at && at + 1 < dot && dot + 3 <= |s|
        && (forall k :: 0 <= k < at ==> IsLocalChar(s[k]))
        && (forall k :: at < k < dot ==> IsDomainChar(s[k]))
        && (forall k :: dot < k < |s| ==> IsAsciiLetter(s[k]))
  }

  function IsEmail(s: string): bool {
    IsEmailBody(s) || (|s| > 0 && s[|s| - 1] == '\n' && IsEmailBody(s[..|s| - 1]))
  }

  /** The `@` of a split is the first one: the local part holds none. */
  lemma SplitAtIsFirst(s: string, at: int, dot: int)
    requires EmailSplit(s, at, dot)
    ensures IndexOf(s, '@') == Some(at)
  {
    assert s == s[..at] + ['@'] + s[at + 1..];
    assert '@' !in s[..at] by {
      forall k | 0 <= k < at
        ensures s[..at][k] != '@'
      {
        assert IsLocalChar(s[k]);
      }
    }
    IndexOfFirst(s[..at], '@', s[at + 1..]);
  }

  /** The `.` of a split is the last one: the letters after it hold none. */
  lemma SplitDotIsLast(s: string, at: int, dot: int)
    requires EmailSplit(s, at, dot)
    ensures LastIndexOf(s[at + 1..], '.') == Some(dot - at - 1)
  {
    var rest := s[at + 1..];
    assert rest == rest[..dot - at - 1] + ['.'] + s[dot + 1..];
    var tail := s[dot + 1..];
    assert '.' !in tail by {
      forall k | 0 <= k < |tail|
        ensures tail[k] != '.'
      {
        assert IsAsciiLetter(s[dot + 1 + k]);
      }
    }
    LastIndexOfLast(rest[..dot - at - 1], '.', tail);
  }

  /** The recogniser accepts exactly the strings the pattern matches. */
  lemma IsEmailBodyCorrect(s: string)
    ensures IsEmailBody(s) <==> EmailBody(s)
  {
    if IsEmailBody(s) {
      var at := IndexOf(s, '@').value;
      var dot := at + 1 + LastIndexOf(s[at + 1..], '.').value;
      assert EmailSplit(s, at, dot);
    }
    if EmailBody(s) {
      var at, dot :| EmailSplit(s, at, dot);
      SplitAtIsFirst(s, at, dot);
      SplitDotIsLast(s, at, dot);
    }
  }

  lemma IsEmailCorrect(s: string)
    ensures IsEmail(s) <==> EmailPattern(s)
  {
    IsEmailBodyCorrect(s);
    if |s| > 0 {
      IsEmailBodyCorrect(s[..|s| - 1]);
    }
  }

  // ----- phone -----

  /** `re.sub(r'[^\d+]', '', s)`: the decimal digits and plus signs of `s`, in order. */
  function PhoneChars(s: string): (kept: string)
    ensures |kept| <= |s|
    ensures forall k :: 0 <= k < |kept| ==> IsDecimal(kept[k]) || kept[k] == '+'
  {
    if s == [] then []
    else (if IsDecimal(s[0]) || s[0] == '+' then [s[0]] else []) + PhoneChars(s[1..])
  }

  /** One character is kept exactly when it is a decimal digit or `+`. */
  lemma PhoneCharsSingle(c: char)
    ensures PhoneChars([c]) == if IsDecimal(c) || c == '+' then [c] else []
  {
    assert [c][1..] == [];
  }

  /** Filtering distributes over concatenation. */
  lemma {:induction false} PhoneCharsAppend(a: string, b: string)
    ensures PhoneChars(a + b) == PhoneChars(a) + PhoneChars(b)
    decreases |a|
  {
    if a != [] {
      assert (a + b)[1..] == a[1..] + b;
      PhoneCharsAppend(a[1..], b);
    } else {
      assert a + b == b;
    }
  }

  /** A string of digits and plus signs is kept whole, so filtering twice is filtering once. */
  lemma {:induction false} PhoneCharsKeepsDialable(s: string)
    requires forall k :: 0 <= k < |s| ==> IsDecimal(s[k]) || s[k] == '+'
    ensures PhoneChars(s) == s
  {
    if s != [] {
      PhoneCharsKeepsDialable(s[1..]);
      assert [s[0]] + s[1..] == s;
    }
  }

  // ----- url -----

  predicate HasScheme(s: string) {
    StartsWith(s, "http://") || StartsWith(s, "https://")
  }

  /** The input, with `https://` in front when it starts with neither scheme. */
  function WithScheme(data: string): (s: string)
    ensures HasScheme(s)
    ensures s == data || s == "https://" + data
    ensures HasScheme(data) ==> s == data
  {
    if HasScheme(data) then data else "https://" + data
  }

  /** The length of the scheme `https?://` matches. */
  function SchemeLength(s: string): (n: nat)
    requires HasScheme(s)
    ensures n <= |s|
    ensures s[..n] == "https://" || s[..n] == "http://"
    ensures StartsWith(s, "https://") <==> n == 8
  {
    if StartsWith(s, "https://") then 8 else 7
  }

  /**
   * What `[^\s/$.?#].[^\s]*$` needs of the text after the scheme: a first
   * character that is neither whitespace nor one of `/$.?#`, a second that is
   * not a newline, and then no whitespace, except one final newline.
   */
  predicate IsUrlRest(r: string) {
    |r| >= 2 && !IsSpace(r[0]) && r[0] !in "/$.?#" && r[1] != '\n'
    && (forall k :: 2 <= k < |r| ==> !IsSpace(r[k]) || (k == |r| - 1 && r[k] == '\n'))
  }

  predicate IsUrl(s: string)
    requires HasScheme(s)
  {
    IsUrlRest(s[SchemeLength(s)..])
  }

  // ----- wifi -----

  const SecurityTypes: seq<string> := ["WPA", "WEP", "NOPASS"]

  /** The third part trimmed and upper-cased, `WPA` when there is none or it is not a known type. */
  function Security(parts: seq<string>): (r: string)
    ensures r in SecurityTypes
    ensures |parts| <= 2 ==> r == "WPA"
  {
    var requested := if |parts| > 2 then Upper(Trim(parts[2])) else "WPA";
    if requested in SecurityTypes then requested else "WPA"
  }

  /** The payload a phone reads a network from. */
  function WifiPayload(security: string, ssid: string, password: string): string {
    "WIFI:T:" + security + ";S:" + ssid + ";P:" + password + ";;"
  }

  /** Reading a payload back into its security type, network name and password. */
  function WifiFields(payload: string): Option<(string, string, string)> {
    if !StartsWith(payload, "WIFI:T:") then None
    else
      var fields := Split(payload[7..], ';');
      if |fields| == 5 && StartsWith(fields[1], "S:") && StartsWith(fields[2], "P:") && fields[3] == "" && fields[4] == ""
      then Some((fields[0], fields[1][2..], fields[2][2..]))
      else None
  }

  // ----- the formatter -----

  /** `format_data_for_qr(data, data_type)`. */
  function FormatForQr(data: string, dataType: string): (r: Result<string, QrError>)
    ensures r.Err? ==> dataType in ["email", "phone", "url", "wifi"]
    ensures r.Err? && dataType == "email" ==> r.error == InvalidEmail
    ensures r.Err? && dataType == "phone" ==> r.error == InvalidPhone
    ensures r.Err? && dataType == "url" ==> r.error == InvalidUrl
    ensures r.Err? && dataType == "wifi" ==> r.error == InvalidWifi
  {
    if dataType == "email" then
      if IsEmail(data) then Ok("mailto:" + data) else Err(InvalidEmail)
    else if dataType == "phone" then
      var phone := PhoneChars(data);
      if |phone| < 7 then Err(InvalidPhone) else Ok("tel:" + phone)
    else if dataType == "url" then
      var url := WithScheme(data);
      if IsUrl(url) then Ok(url) else Err(InvalidUrl)
    else if dataType == "wifi" then
      var parts := Split(data, ',');
      if |parts| < 2 then Err(InvalidWifi)
      else Ok(WifiPayload(Security(parts), Trim(parts[0]), Trim(parts[1])))
    else
      Ok(data)
  }

  // ----- properties -----

  /** An email is accepted exactly when it matches the pattern, and is then prefixed with `mailto:`. */
  lemma EmailAcceptedIffPattern(data: string)
    ensures FormatForQr(data, "email").Ok? <==> EmailPattern(data)
    ensures FormatForQr(data, "email").Ok? ==> FormatForQr(data, "email").value == "mailto:" + data
  {
    IsEmailCorrect(data);
  }

  /** An address split as the pattern wants is accepted. */
  lemma EmailSplitAccepted(s: string, at: int, dot: int)
    requires EmailSplit(s, at, dot)
    ensures FormatForQr(s, "email") == Ok("mailto:" + s)
  {
    IsEmailCorrect(s);
  }

  lemma EmailAccepted(s: string)
    requires s == "test@example.com"
    ensures FormatForQr(s, "email") == Ok("mailto:" + s)
  {
    assert s[..4] == "test" && s[5..12] == "example" && s[13..] == "com";
    assert forall k :: 0 <= k < 4 ==> IsLocalChar(s[k]) by {
      forall k | 0 <= k < 4 ensures IsLocalChar(s[k]) {
        assert s[k] == s[..4][k];
      }
    }
    assert forall k :: 4 < k < 12 ==> IsDomainChar(s[k]) by {
      forall k | 4 < k < 12 ensures IsDomainChar(s[k]) {
        assert s[k] == s[5..12][k - 5];
      }
    }
    assert forall k :: 12 < k < |s| ==> IsAsciiLetter(s[k]) by {
      forall k | 12 < k < |s| ensures IsAsciiLetter(s[k]) {
        assert s[k] == s[13..][k - 13];
      }
    }
    assert EmailSplit(s, 4, 12);
    EmailSplitAccepted(s, 4, 12);
  }

  lemma EmailRejected()
    ensures FormatForQr("invalid-email", "email") == Err(InvalidEmail)
  {
    var s := "invalid-email";
    assert IndexOf(s, '@').None? && IndexOf(s[..|s| - 1], '@').None? by {
      forall k | 0 <= k < |s|
        ensures s[k] != '@'
      {
      }
    }
  }

  /**
   * A phone number keeps its digits and plus signs and needs seven of them;
   * formatting a formatted number again gives it back.
   */
  lemma PhoneKeepsDialable(data: string)
    ensures FormatForQr(data, "phone").Err? <==> |PhoneChars(data)| < 7
    ensures FormatForQr(data, "phone").Ok? ==>
      FormatForQr(data, "phone").value == "tel:" + PhoneChars(data) &&
      FormatForQr(FormatForQr(data, "phone").value, "phone") == FormatForQr(data, "phone")
  {
    var kept := PhoneChars(data);
    PhoneCharsAppend("tel:", kept);
    PhoneCharsKeepsDialable(kept);
    assert PhoneChars("tel:") == [] by {
      assert !IsDecimal('t') && !IsDecimal('e') && !IsDecimal('l') && !IsDecimal(':');
      assert "tel:"[1..] == "el:" && "el:"[1..] == "l:" && "l:"[1..] == ":" && ":"[1..] == [];
    }
    assert PhoneChars("tel:" + kept) == kept;
    if |kept| >= 7 {
      assert FormatForQr(data, "phone") == Ok("tel:" + kept);
      assert FormatForQr("tel:" + kept, "phone") == Ok("tel:" + kept);
    }
  }

  lemma PhoneExample()
    ensures FormatForQr("123", "phone") == Err(InvalidPhone)
  {
  }

  /**
   * A URL result starts with a scheme and is the input, with `https://` in
   * front when it had neither scheme; it is accepted exactly when the text
   * after the scheme meets the pattern; and formatting it again gives it back.
   */
  lemma UrlResult(data: string)
    ensures FormatForQr(data, "url").Ok? <==> IsUrlRest(WithScheme(data)[SchemeLength(WithScheme(data))..])
    ensures FormatForQr(data, "url").Ok? ==>
      var url := FormatForQr(data, "url").value;
      HasScheme(url) && (url == data || url == "https://" + data) && FormatForQr(url, "url") == Ok(url)
  {
  }

  /** The scheme is tested case-sensitively, so an upper-case one gets a second scheme and still passes. */
  lemma UpperCaseSchemePrefixed()
    ensures FormatForQr("HTTP://a.io", "url") == Ok("https://HTTP://a.io")
  {
    var url := "https://HTTP://a.io";
    assert "HTTP://a.io"[0] == 'H';
    assert !StartsWith("HTTP://a.io", "http://") && !StartsWith("HTTP://a.io", "https://");
    assert StartsWith(url, "https://");
    var rest := url[8..];
    assert rest == "HTTP://a.io";
    assert rest[0] !in "/$.?#";
    assert forall k :: 2 <= k < |rest| ==> !IsSpace(rest[k]);
    assert IsUrlRest(rest);
    assert WithScheme("HTTP://a.io") == url && SchemeLength(url) == 8;
    assert IsUrl(url);
  }

  /** The first character after the scheme may not be a dot, and a newline may end the URL but not stand second. */
  lemma UrlEdgeCases()
    ensures FormatForQr("https://.example.com", "url") == Err(InvalidUrl)
    ensures FormatForQr("https://a\n", "url") == Err(InvalidUrl)
    ensures FormatForQr("https://ab\n", "url") == Ok("https://ab\n")
  {
    assert StartsWith("https://.example.com", "https://");
    assert "https://.example.com"[8..][0] == '.';
    assert StartsWith("https://a\n", "https://");
    assert "https://a\n"[8..] == "a\n";
    assert StartsWith("https://ab\n", "https://");
    assert "https://ab\n"[8..] == "ab\n";
  }

  /** Wifi data is refused exactly when it holds no comma. */
  lemma WifiNeedsComma(data: string)
    ensures FormatForQr(data, "wifi").Err? <==> ',' !in data
  {
    if ',' in data {
      var i := IndexOf(data, ',').value;
      assert data == data[..i] + [','] + data[i + 1..];
      SplitAround(data[..i], data[i + 1..], ',');
    } else {
      SplitNoSeparator(data, ',');
    }
  }

  /** The security type is always one of the three known ones. */
  lemma SecurityKnown(parts: seq<string>)
    ensures Security(parts) in SecurityTypes
    ensures |parts| > 2 && Upper(Trim(parts[2])) in SecurityTypes ==> Security(parts) == Upper(Trim(parts[2]))
  {
  }

  /** Parts after the third do not change the payload. */
  lemma WifiIgnoresExtraParts(data: string, extra: string)
    requires |Split(data, ',')| >= 3
    ensures FormatForQr(data + "," + extra, "wifi") == FormatForQr(data, "wifi")
  {
    assert data + "," + extra == data + [','] + extra;
    SplitAround(data, extra, ',');
    var parts := Split(data, ',') + Split(extra, ',');
    assert parts[..3] == Split(data, ',')[..3];
  }

  /** The payload reads back into the security type, the network name and the password. */
  lemma WifiRoundTrip(security: string, ssid: string, password: string)
    requires ';' !in security && ';' !in ssid && ';' !in password
    ensures WifiFields(WifiPayload(security, ssid, password)) == Some((security, ssid, password))
  {
    var end := ";";
    SplitCons("", "", ';');
    assert Split(end, ';') == ["", ""] by {
      assert end == "" + [';'] + "";
    }
    var third := "P:" + password + [';'] + end;
    SplitCons("P:" + password, end, ';');
    var second := "S:" + ssid + [';'] + third;
    SplitCons("S:" + ssid, third, ';');
    var fields := security + [';'] + second;
    SplitCons(security, second, ';');
    PayloadShape(security, ssid, password);
    PrefixSlice("WIFI:T:", fields);
    PrefixSlice("S:", ssid);
    PrefixSlice("P:", password);
  }

  /** The payload is its prefix, then the five fields joined by `;`. */
  lemma PayloadShape(security: string, ssid: string, password: string)
    ensures WifiPayload(security, ssid, password) ==
      "WIFI:T:" + (security + [';'] + ("S:" + ssid + [';'] + ("P:" + password + [';'] + ";")))
  {
  }

  /** What follows a prefix is the rest of the string. */
  lemma PrefixSlice(prefix: string, rest: string)
    ensures StartsWith(prefix + rest, prefix) && (prefix + rest)[|prefix|..] == rest
  {
  }

  /** A first part without the separator is split off whole. */
  lemma SplitCons(first: string, rest: string, sep: char)
    requires sep !in first
    ensures Split(first + [sep] + rest, sep) == [first] + Split(rest, sep)
  {
    SplitAround(first, rest, sep);
    SplitNoSeparator(first, sep);
  }

  /**
   * Every accepted wifi input gives a payload that reads back into the known
   * security type and the trimmed name and password, when these hold no `;`.
   */
  lemma WifiPayloadReadsBack(data: string)
    requires FormatForQr(data, "wifi").Ok?
    requires ';' !in data
    ensures WifiFields(FormatForQr(data, "wifi").value) ==
      Some((Security(Split(data, ',')), Trim(Split(data, ',')[0]), Trim(Split(data, ',')[1])))
  {
    var parts := Split(data, ',');
    SecurityKnown(parts);
    SplitPartsAvoid(data, ',', ';');
    TrimNoNewChar(parts[0], ';');
    TrimNoNewChar(parts[1], ';');
    WifiRoundTrip(Security(parts), Trim(parts[0]), Trim(parts[1]));
  }

  /** A character the input lacks is in none of its parts. */
  lemma {:induction false} SplitPartsAvoid(s: string, sep: char, c: char)
    requires c !in s
    ensures forall k :: 0 <= k < |Split(s, sep)| ==> c !in Split(s, sep)[k]
    decreases |s|
  {
    if |s| > 0 {
      assert c !in s[1..] by {
        assert forall i :: 0 <= i < |s| - 1 ==> s[1..][i] == s[i + 1];
      }
      SplitPartsAvoid(s[1..], sep, c);
    }
  }

  /**
   * Nothing in the name or the password is escaped, so a `;` in them makes
   * two different networks give the same payload.
   */
  lemma WifiSemicolonAmbiguous(x: string, y: string, z: string)
    requires ',' !in x && ',' !in y && ',' !in z
    requires Trimmed(x) && Trimmed(y) && Trimmed(z)
    ensures FormatForQr(x + ";P:" + y + "," + z, "wifi") == FormatForQr(x + "," + y + ";P:" + z, "wifi")
  {
    JoinedTrimmed(x, y);
    JoinedTrimmed(y, z);
    TrimOfTrimmed(x);
    TrimOfTrimmed(z);
    WifiTwoParts(x + ";P:" + y, z);
    WifiTwoParts(x, y + ";P:" + z);
    assert x + "," + y + ";P:" + z == x + "," + (y + ";P:" + z);
    PayloadShift(x, y, z);
  }

  /** Non-empty, and neither starting nor ending with white space. */
  predicate Trimmed(s: string) {
    s != [] && !IsSpace(s[0]) && !IsSpace(s[|s| - 1])
  }

  lemma JoinedTrimmed(a: string, b: string)
    requires ',' !in a && ',' !in b && Trimmed(a) && Trimmed(b)
    ensures ',' !in a + ";P:" + b && Trim(a + ";P:" + b) == a + ";P:" + b
  {
    var j := a + ";P:" + b;
    assert j[0] == a[0] && j[|j| - 1] == b[|b| - 1];
    TrimOfTrimmed(j);
  }

  /** Moving `;P:` from the end of the name to the start of the password leaves the payload as it is. */
  lemma PayloadShift(x: string, y: string, z: string)
    ensures WifiPayload("WPA", x + ";P:" + y, z) == WifiPayload("WPA", x, y + ";P:" + z)
  {
    var whole := "WIFI:T:WPA;S:" + x + ";P:" + y + ";P:" + z + ";;";
    assert WifiPayload("WPA", x + ";P:" + y, z) == whole;
    assert WifiPayload("WPA", x, y + ";P:" + z) == whole;
  }

  /** A name and a password joined by one comma give a `WPA` payload of the two, stripped. */
  lemma WifiTwoParts(ssid: string, password: string)
    requires ',' !in ssid && ',' !in password
    ensures FormatForQr(ssid + "," + password, "wifi") == Ok(WifiPayload("WPA", Trim(ssid), Trim(password)))
  {
    assert ssid + "," + password == ssid + [','] + password;
    SplitAround(ssid, password, ',');
    SplitNoSeparator(ssid, ',');
    SplitNoSeparator(password, ',');
  }

  /** Every other kind, plain text included, is returned as it is and never refused. */
  lemma OtherKindsUnchanged(data: string, dataType: string)
    requires dataType !in ["email", "phone", "url", "wifi"]
    ensures FormatForQr(data, dataType) == Ok(data)
  {
  }
}
