/** Characters and texts as the validators see them. */
module Texts {
  /** The control characters of Unicode, general category Cc. */
  predicate IsControl(c: char) {
    (c as int) < 0x20 || 0x7f <= (c as int) <= 0x9f
  }

  predicate Plain(text: string) {
    forall i | 0 <= i < |text| :: !IsControl(text[i])
  }

  /** Present, short enough and free of control characters. */
  predicate ValidText(text: string, max: nat) {
    text != "" && |text| <= max && Plain(text)
  }

  function Utf8Length(text: string): nat {
    if text == "" then 0 else
      var code := text[0] as int;
      (if code < 0x80 then 1 else if code < 0x800 then 2 else if code < 0x1_0000 then 3 else 4) + Utf8Length(text[1..])
  }

  /** An idempotency key: one to 255 bytes without control characters. */
  predicate ValidKey(key: string) {
    1 <= Utf8Length(key) <= 255 && forall c | c in key :: !IsControl(c)
  }

  function Split(path: string): (parts: seq<string>)
    ensures parts != []
  {
    if path == "" then [""]
    else
      var rest := Split(path[1..]);
      if path[0] == '/' || path[0] == '\\' then [""] + rest else [[path[0]] + rest[0]] + rest[1..]
  }

  predicate Contains(text: string, part: string) {
    exists i | 0 <= i <= |text| :: part <= text[i..]
  }

  /** A relative path that stays below where it starts. */
  predicate ValidRelativePath(path: string) {
    && ValidText(path, 4096)
    && path[0] != '/' && path[0] != '\\'
    && !Contains(path, "://")
    && forall part | part in Split(path) :: part != "" && part != "." && part != ".."
  }
}
