/** The helpers of src/utils/index.ts that the bot uses: command parsing and
    phone-number normalisation. */
module Utils {
  import opened Wrappers
  import opened Text

  /** The digits JavaScript's `\d` matches. */
  predicate IsDigit(c: char) {
    '0' <= c <= '9'
  }

  predicate AllDigits(s: string) {
    forall i :: 0 <= i < |s| ==> IsDigit(s[i])
  }

  /** `phone.replace(/[^\d]/g, '')`: every character that is not a digit
      removed. */
  function SanitizePhoneNumber(phone: string): (r: string)
    ensures AllDigits(r) && |r| <= |phone|
  {
    if phone == [] then []
    else (if IsDigit(phone[0]) then [phone[0]] else []) + SanitizePhoneNumber(phone[1..])
  }

  /** Sanitising works character by character: it distributes over
      concatenation, so the digits keep their original order. */
  lemma {:induction false} SanitizeAppend(a: string, b: string)
    ensures SanitizePhoneNumber(a + b) == SanitizePhoneNumber(a) + SanitizePhoneNumber(b)
  {
    if a == [] {
      assert a + b == b;
    } else {
      assert (a + b)[1..] == a[1..] + b;
      SanitizeAppend(a[1..], b);
    }
  }

  /** A string of digits is left as it is, and one character is kept exactly
      when it is a digit. */
  lemma {:induction false} SanitizeKeepsDigits(s: string)
    ensures AllDigits(s) ==> SanitizePhoneNumber(s) == s
    ensures |s| == 1 ==> SanitizePhoneNumber(s) == (if IsDigit(s[0]) then s else [])
  {
    if s != [] {
      SanitizeKeepsDigits(s[1..]);
    }
  }

  /** Sanitising twice is the same as sanitising once. */
  lemma SanitizeIdempotent(phone: string)
    ensures SanitizePhoneNumber(SanitizePhoneNumber(phone)) == SanitizePhoneNumber(phone)
  {
    SanitizeKeepsDigits(SanitizePhoneNumber(phone));
  }

  /** The WhatsApp suffix of a private chat address. */
  const ContactSuffix: string := "@c.us"

  /** `formatPhoneNumber`: the sanitised digits followed by `@c.us`. */
  function FormatPhoneNumber(phone: string): (r: string)
    ensures |r| == |SanitizePhoneNumber(phone)| + |ContactSuffix|
  {
    SanitizePhoneNumber(phone) + ContactSuffix
  }

  /** A formatted number is the digits of the input followed by the suffix,
      it contains an `@` (so `sendMessage` accepts it as a recipient), and
      formatting it again changes nothing. */
  lemma FormatPhoneNumberShape(phone: string)
    ensures AllDigits(FormatPhoneNumber(phone)[..|FormatPhoneNumber(phone)| - 5])
    ensures FormatPhoneNumber(phone)[|FormatPhoneNumber(phone)| - 5..] == ContactSuffix
    ensures Contains(FormatPhoneNumber(phone), "@")
    ensures FormatPhoneNumber(FormatPhoneNumber(phone)) == FormatPhoneNumber(phone)
  {
    var d := SanitizePhoneNumber(phone);
    var r := FormatPhoneNumber(phone);
    assert r[..|r| - 5] == d;
    assert OccursAt(r, "@", |d|);
    SanitizeAppend(d, ContactSuffix);
    SanitizeIdempotent(phone);
    assert SanitizePhoneNumber(ContactSuffix) == [];
  }

  /** The result of `parseCommand`: the command word and its arguments. */
  datatype ParsedCommand = ParsedCommand(command: string, args: seq<string>)

  /** `parseCommand(message, prefix)`: `None` when the message does not start
      with the prefix; otherwise the text after the prefix, trimmed and split
      on whitespace runs, the first piece lower-cased as the command. */
  function ParseCommand(message: string, prefix: string): (r: Option<ParsedCommand>)
    ensures r.None? <==> !StartsWith(message, prefix)
    ensures r.Some? && Blank(message[|prefix|..]) ==> r.value == ParsedCommand("", [])
    ensures r.Some? ==> NoSpace(r.value.command) && forall k :: 0 <= k < |r.value.args| ==> NoSpace(r.value.args[k])
  {
    if !StartsWith(message, prefix) then None
    else
      var parts := Split(Trim(message[|prefix|..]));
      Some(ParsedCommand(ToLower(parts[0]), parts[1..]))
  }

  /** With the empty prefix every message parses as a command. */
  lemma EmptyPrefixAlwaysCommand(message: string)
    ensures ParseCommand(message, "").Some?
  {
    assert message[..0] == "";
  }

  /** When something other than whitespace follows the prefix, the command is
      a non-empty word, every argument is a non-empty word, and together they
      are the non-whitespace text after the prefix in order: the command
      lower-cased, the arguments with their case kept. */
  lemma ParseCommandTokens(message: string, prefix: string)
    requires StartsWith(message, prefix) && !Blank(message[|prefix|..])
    ensures var p := ParseCommand(message, prefix).value;
      var text := DropSpaces(message[|prefix|..]);
      && p.command != []
      && (forall k :: 0 <= k < |p.args| ==> p.args[k] != [])
      && |p.command| <= |text|
      && ToLower(text[..|p.command|]) == p.command
      && text[|p.command|..] == Concat(p.args)
  {
    var rest := message[|prefix|..];
    var t := Trim(rest);
    var parts := Split(t);
    SplitTrimmedNonEmpty(t);
    SplitKeepsText(t);
    DropSpacesOfTrim(rest);
    ToLowerKeepsNoSpace(parts[0]);
    assert Concat(parts) == parts[0] + Concat(parts[1..]);
  }
  /** The command is the first word of the trimmed text after the prefix,
      lower-cased, and the arguments are the words of the text after that
      word: joined with single spaces they give that text with every
      whitespace run collapsed to one space. */
  lemma ParseCommandWords(message: string, prefix: string)
    requires StartsWith(message, prefix)
    ensures var p := ParseCommand(message, prefix).value;
      var t := Trim(message[|prefix|..]);
      var w := FirstSpace(t);
      && p.command == ToLower(t[..w])
      && Join(p.args, " ") == Collapse(TrimStart(t[w..]))
  {
    var t := Trim(message[|prefix|..]);
    var w := FirstSpace(t);
    var parts := Split(t);
    if w < |t| {
      assert parts[1..] == Split(TrimStart(t[w..]));
      SplitJoin(TrimStart(t[w..]));
    } else {
      assert t[w..] == [];
    }
  }
}
