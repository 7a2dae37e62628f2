/** NUL-terminated strings, as the Rust side hands them to the engine.
    Every name in functions.rs is built by `to_string()` followed by
    `push('\0')`; the engine reads such a buffer up to its first NUL. */
module CStrings {

  /** `name.push('\0')` on a fresh copy of `s`. */
  function Terminated(s: string): (r: string)
    ensures |r| == |s| + 1
    ensures r[..|s|] == s && r[|s|] == '\0'
  {
    s + ['\0']
  }

  /** What the engine sees when it reads a C string from `buf`: every
      character before the first NUL. */
  function ReadCString(buf: string): (r: string)
    requires '\0' in buf
    ensures '\0' !in r
    ensures |r| < |buf| && buf[..|r|] == r && buf[|r|] == '\0'
  {
    if buf[0] == '\0' then [] else [buf[0]] + ReadCString(buf[1..])
  }

  /** Reading back a terminated name gives the name exactly when the name
      has no NUL of its own; otherwise the engine sees a strict prefix. */
  lemma {:induction false} ReadTerminated(s: string)
    ensures ReadCString(Terminated(s)) == s <==> '\0' !in s
    ensures '\0' in s ==> |ReadCString(Terminated(s))| < |s|
  {
    if s != [] {
      assert Terminated(s)[1..] == Terminated(s[1..]);
      ReadTerminated(s[1..]);
    }
  }
}
