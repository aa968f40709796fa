/** Query strings: parse_qsl and what it reads back of plain pairs. */
module QueryText {

  import opened Basics
  import opened UrlText

  predicate IsHex(c: char) { IsDigit(c) || 'a' <= c <= 'f' || 'A' <= c <= 'F' }

  function HexValue(c: char): (n: nat)
    requires IsHex(c)
    ensures n < 16
  {
    if IsDigit(c) then c as int - '0' as int
    else if 'a' <= c <= 'f' then c as int - 'a' as int + 10
    else c as int - 'A' as int + 10
  }

  /** The character of one escaped byte; bytes above 127 decode to characters
      outside ASCII, all represented by U+FFFD. */
  function ByteChar(n: nat): char
    requires n < 256
  {
    if n < 128 then n as char else 0xFFFD as char
  }

  /** unquote after '+' became a space. */
  function Unquote(s: string): string {
    if s == "" then ""
    else if s[0] == '%' && |s| >= 3 && IsHex(s[1]) && IsHex(s[2]) then
      [ByteChar(HexValue(s[1]) * 16 + HexValue(s[2]))] + Unquote(s[3..])
    else [if s[0] == '+' then ' ' else s[0]] + Unquote(s[1..])
  }

  type Pair = (string, string)

  /** One field of the query, if it counts. */
  function Field(text: string, keepBlank: bool): seq<Pair> {
    var cut := Partition(text, '=');
    if text == "" || (cut.after == "" && !keepBlank) then [] else [(Unquote(cut.before), Unquote(cut.after))]
  }

  function Fields(texts: seq<string>, keepBlank: bool): seq<Pair> {
    if texts == [] then [] else Field(texts[0], keepBlank) + Fields(texts[1..], keepBlank)
  }

  function ParseQuery(query: string, keepBlank: bool): seq<Pair> { Fields(SplitAll(query, '&'), keepBlank) }

  /** The last value of a key, or "". */
  function LastValue(pairs: seq<Pair>, key: string): string {
    if pairs == [] then "" else if pairs[|pairs| - 1].0 == key then pairs[|pairs| - 1].1 else LastValue(pairs[..|pairs| - 1], key)
  }

  predicate HasKey(pairs: seq<Pair>, key: string) { exists k :: 0 <= k < |pairs| && pairs[k].0 == key }

  predicate IsWord(s: string) { s != "" && forall c | c in s :: IsAlnum(c) }

  lemma {:induction false} UnquotePlain(s: string)
    requires forall c | c in s :: c != '%' && c != '+'
    ensures Unquote(s) == s
  {
    if s != "" {
      assert s[0] in s && forall c | c in s[1..] :: c in s;
      UnquotePlain(s[1..]);
      assert s == [s[0]] + s[1..];
    }
  }

  lemma FieldReadsBack(name: string, value: string, keepBlank: bool)
    requires IsWord(name) && IsWord(value)
    ensures Field(name + "=" + value, keepBlank) == [(name, value)]
  {
    PartitionAt(name, '=', value);
    UnquotePlain(name);
    UnquotePlain(value);
  }

  /** A printed pair is read back, with what follows it. */
  lemma PairReadsBack(name: string, value: string, rest: string, keepBlank: bool)
    requires IsWord(name) && IsWord(value)
    ensures ParseQuery(name + "=" + value + "&" + rest, keepBlank) == [(name, value)] + ParseQuery(rest, keepBlank)
    ensures ParseQuery(name + "=" + value, keepBlank) == [(name, value)]
  {
    var text := name + "=" + value;
    assert '&' !in text by {
      forall c | c in text ensures c != '&' { assert c in name || c in value || c == '='; }
    }
    FieldReadsBack(name, value, keepBlank);
    SplitFirst(text, '&', rest);
    assert name + "=" + value + "&" + rest == text + ['&'] + rest;
    var more := SplitAll(rest, '&');
    assert ([text] + more)[1..] == more;
    PartitionNone(text, '&');
    assert SplitAll(text, '&') == [text] && [text][1..] == [];
    assert Fields([text], keepBlank) == Field(text, keepBlank) + Fields([], keepBlank);
  }
}
