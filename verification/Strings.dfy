/** strings.Join, which the keys of the stores and the Icon-Options header use. */
module Strings {
  function Join(parts: seq<string>, sep: char): string
  {
    if parts == [] then "" else if |parts| == 1 then parts[0] else parts[0] + [sep] + Join(parts[1..], sep)
  }
}
