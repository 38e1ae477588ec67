/** The languages of the skeleton extractor, by file extension. */
module Languages {
  import opened Options

  datatype Language = Rust | TypeScript | Python | Go | CSharp | Php | Cpp | Markdown | Unknown

  /** The position of the last dot, if there is one. */
  function LastDot(s: string): (r: Option<nat>)
    ensures r.Some? ==> r.value < |s| && s[r.value] == '.' && '.' !in s[r.value + 1..]
    ensures r.None? ==> '.' !in s
  {
    if s == [] then None
    else if s[|s| - 1] == '.' then Some(|s| - 1)
    else LastDot(s[..|s| - 1])
  }

  /** What follows the last dot of a file name, unless the name only starts with it. */
  function Extension(name: string): Option<string> {
    var dot := LastDot(name);
    if dot.None? || dot.value == 0 then None else Some(name[dot.value + 1..])
  }

  function LanguageOf(name: string): Language {
    var e := Extension(name);
    if e.None? then Unknown
    else if e.value == "rs" then Rust
    else if e.value in ["ts", "tsx", "js", "jsx", "mjs", "cjs"] then TypeScript
    else if e.value == "py" then Python
    else if e.value == "go" then Go
    else if e.value == "cs" then CSharp
    else if e.value == "php" then Php
    else if e.value in ["cpp", "cxx", "cc", "hpp", "hh", "h"] then Cpp
    else if e.value in ["md", "markdown", "mdown", "mkd"] then Markdown
    else Unknown
  }
}
