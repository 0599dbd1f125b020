/**
 Character classes of the HTTP parser, for the strict build.

 A C `char` of the input is a Dafny `char`; bytes 128..255 are the characters with those codes.
 Every table of the source is a total predicate here, so all results hold on every `char`.
 */
module HttpChars {

  const CR := '\r'
  const LF := '\n'

  predicate IsNum(c: char) {
    '0' <= c <= '9'
  }

  predicate IsAlpha(c: char) {
    'a' <= c <= 'z' || 'A' <= c <= 'Z'
  }

  predicate IsAlphaNum(c: char) {
    IsAlpha(c) || IsNum(c)
  }

  predicate IsHex(c: char) {
    IsNum(c) || 'a' <= c <= 'f' || 'A' <= c <= 'F'
  }

  predicate IsMark(c: char) {
    c == '-' || c == '_' || c == '.' || c == '!' || c == '~' || c == '*' || c == '\'' || c == '(' || c == ')'
  }

  predicate IsUserInfoChar(c: char) {
    || IsAlphaNum(c) || IsMark(c) || c == '%' || c == ';' || c == ':' || c == '&' || c == '=' || c == '+'
    || c == '$' || c == ','
  }

  predicate IsHostChar(c: char) {
    IsAlphaNum(c) || c == '.' || c == '-'
  }

  /** The bitmap `normal_url_char`: printable ASCII without '#' and '?'. */
  predicate IsUrlChar(c: char) {
    '!' <= c <= '~' && c != '#' && c != '?'
  }

  /** A non-zero entry of the table `tokens`. */
  predicate IsToken(c: char) {
    || IsAlphaNum(c) || c == '!' || ('#' <= c <= '\'') || c == '*' || c == '+' || c == '-' || c == '.'
    || ('^' <= c <= '`') || c == '|' || c == '~'
  }

  /** The entry of the table `tokens`: letters are folded to lower case. */
  function TokenOf(c: char): char
    requires IsToken(c)
  {
    if 'A' <= c <= 'Z' then (c as int + 32) as char else c
  }

  /** The macro LOWER sets bit 5 of any byte; beyond ASCII its result is never equal to anything it is compared with. */
  function Lower(c: char): char {
    if c as int < 128 && (c as int / 32) % 2 == 0 then (c as int + 32) as char else c
  }

  function Digit(c: char): nat
    requires IsNum(c)
  {
    c as int - '0' as int
  }

  /**
   The table `unhex`, -1 for "not a digit". The source lists 128 of its 256 entries, so C fills the
   others with 0 and the bytes 128..255 count as the hexadecimal digit zero.
   */
  function Unhex(c: char): (r: int)
    ensures -1 <= r < 16
  {
    if IsNum(c) then c as int - '0' as int
    else if 'a' <= c <= 'f' then c as int - 'a' as int + 10
    else if 'A' <= c <= 'F' then c as int - 'A' as int + 10
    else if c as int >= 128 then 0
    else -1
  }

  // ----- the tables, entry by entry -----

  const LOWERS: set<char> :=
    {'a', 'b', 'c', 'd', 'e', 'f', 'g', 'h', 'i', 'j', 'k', 'l', 'm',
     'n', 'o', 'p', 'q', 'r', 's', 't', 'u', 'v', 'w', 'x', 'y', 'z'}

  const UPPERS: set<char> :=
    {'A', 'B', 'C', 'D', 'E', 'F', 'G', 'H', 'I', 'J', 'K', 'L', 'M',
     'N', 'O', 'P', 'Q', 'R', 'S', 'T', 'U', 'V', 'W', 'X', 'Y', 'Z'}

  const LETTERS := LOWERS + UPPERS

  const DIGITS: set<char> := {'0', '1', '2', '3', '4', '5', '6', '7', '8', '9'}

  /** What may stand in a path, a query or a fragment beside letters and digits. */
  const URL_MARKS: set<char> :=
    {'!', '"', '$', '%', '&', '\'', '(', ')', '*', '+', ',', '-', '.', '/', ':', ';', '<', '=', '>', '@',
     '[', '\\', ']', '^', '_', '`', '{', '|', '}', '~'}

  lemma LowerTable(c: char)
    ensures 'a' <= c <= 'z' <==> c in LOWERS
  {
  }

  lemma UpperTable(c: char)
    ensures 'A' <= c <= 'Z' <==> c in UPPERS
  {
  }

  lemma AlphaNumTable(c: char)
    ensures IsAlpha(c) <==> c in LETTERS
    ensures IsNum(c) <==> c in DIGITS
    ensures IsAlphaNum(c) <==> c in LETTERS || c in DIGITS
    ensures IsHex(c) <==> c in DIGITS || c in {'a', 'b', 'c', 'd', 'e', 'f', 'A', 'B', 'C', 'D', 'E', 'F'}
  {
    hide LOWERS, UPPERS;
    LowerTable(c);
    UpperTable(c);
  }

  lemma UserInfoTable(c: char)
    ensures IsUserInfoChar(c) <==>
      || c in LETTERS || c in DIGITS
      || c in {'-', '_', '.', '!', '~', '*', '\'', '(', ')', '%', ';', ':', '&', '=', '+', '$', ','}
  {
    hide LETTERS, DIGITS;
    AlphaNumTable(c);
  }

  lemma HostTable(c: char)
    ensures IsHostChar(c) <==> c in LETTERS || c in DIGITS || c in {'.', '-'}
  {
    hide LETTERS, DIGITS;
    AlphaNumTable(c);
  }

  /** The bits of `normal_url_char`. */
  lemma UrlTable(c: char)
    ensures IsUrlChar(c) <==> c in LETTERS || c in DIGITS || c in URL_MARKS
  {
    hide LETTERS, DIGITS;
    AlphaNumTable(c);
  }

  lemma TokenTable(c: char)
    ensures IsToken(c) <==>
      || c in LETTERS || c in DIGITS
      || c in {'!', '#', '$', '%', '&', '\'', '*', '+', '-', '.', '^', '_', '`', '|', '~'}
  {
    hide LETTERS, DIGITS;
    AlphaNumTable(c);
  }

  const FOLDED: map<char, char> :=
    map['A' := 'a', 'B' := 'b', 'C' := 'c', 'D' := 'd', 'E' := 'e', 'F' := 'f', 'G' := 'g', 'H' := 'h', 'I' := 'i',
        'J' := 'j', 'K' := 'k', 'L' := 'l', 'M' := 'm', 'N' := 'n', 'O' := 'o', 'P' := 'p', 'Q' := 'q', 'R' := 'r',
        'S' := 's', 'T' := 't', 'U' := 'u', 'V' := 'v', 'W' := 'w', 'X' := 'x', 'Y' := 'y', 'Z' := 'z']

  /** Upper-case letters are folded, and all others are left as they are. */
  lemma TokenOfTable(c: char)
    requires IsToken(c)
    ensures TokenOf(c) == if c in FOLDED then FOLDED[c] else c
  {
  }

  /** Hexadecimal digits, in the 256 entries of the source. */
  lemma UnhexTable(c: char)
    ensures forall i | 0 <= i < 16 && (c == "0123456789abcdef"[i] || c == "0123456789ABCDEF"[i]) :: Unhex(c) == i
    ensures c !in "0123456789abcdef" && c !in "0123456789ABCDEF" ==> Unhex(c) == if c as int < 128 then -1 else 0
  {
  }
}
