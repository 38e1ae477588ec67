/** Which components a relative path may have. */
module RelativePaths {
  import opened Text

  const MAX_BYTES := 4096

  predicate IsControl(c: char) {
    c < ' ' || '\U{7F}' <= c <= '\U{9F}'
  }

  /** Characters that are refused anywhere. */
  predicate Refused(c: char) {
    c in {'/', '\\', ':', '<', '>', '\"', '|', '?', '*'} || IsControl(c)
  }

  function Upper(c: char): char {
    if 'a' <= c <= 'z' then ((c as int) - 32) as char else c
  }

  /** The part before the first dot, in capital letters. */
  function Stem(part: string): string {
    if part == [] || part[0] == '.' then [] else [Upper(part[0])] + Stem(part[1..])
  }

  /** Device names. */
  predicate IsDevice(stem: string) {
    || stem in {"CON", "PRN", "AUX", "NUL"}
    || (|stem| == 4 && stem[..3] in {"COM", "LPT"} && '1' <= stem[3] <= '9')
  }

  predicate LegalPart(part: string) {
    && part != [] && part != "." && part != ".." && part[|part| - 1] != '.' && part[|part| - 1] != ' '
    && (forall i :: 0 <= i < |part| ==> !Refused(part[i])) && !IsDevice(Stem(part))
  }

  /** Bytes of the parts joined with slashes. */
  function JoinedBytes(parts: seq<string>): nat {
    if parts == [] then 0 else ByteLength(parts[0]) + (if |parts| > 1 then 1 else 0) + JoinedBytes(parts[1..])
  }

  /** `RelativePath::new` of the joined parts, none of which holds a slash. */
  predicate Legal(parts: seq<string>) {
    parts != [] && JoinedBytes(parts) <= MAX_BYTES && forall i :: 0 <= i < |parts| ==> LegalPart(parts[i])
  }
}
