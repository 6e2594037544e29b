/** Log-level selection (pkg/logger/logger.go): the level name is lower-cased
    and mapped to a slog level; anything unrecognised means Info. Only ASCII
    letters are lower-cased here. */
module Logger {
  /** The slog levels the setup chooses between. */
  datatype Level = Debug | Info | Warn | Error

  /** An upper-case ASCII letter becomes its lower-case partner, 32 code
      points further on; every other character is kept. */
  function LowerChar(c: char): (d: char)
    ensures 'A' <= c <= 'Z' ==> 'a' <= d <= 'z' && d as int == c as int + 32
    ensures !('A' <= c <= 'Z') ==> d == c
  {
    if 'A' <= c <= 'Z' then (c - 'A' + 'a') as char else c
  }

  /** strings.ToLower on ASCII: every upper-case letter is lowered and nothing
      else changes. */
  function ToLower(s: string): (t: string)
    ensures |t| == |s|
    ensures forall i :: 0 <= i < |s| ==> t[i] == LowerChar(s[i])
    decreases |s|
  {
    if s == [] then [] else [LowerChar(s[0])] + ToLower(s[1..])
  }

  /** Lower-casing twice is lower-casing once. */
  lemma ToLowerIdempotent(s: string)
    ensures ToLower(ToLower(s)) == ToLower(s)
  {
    var t := ToLower(s);
    assert forall i :: 0 <= i < |s| ==> ToLower(t)[i] == LowerChar(LowerChar(s[i]));
  }

  /** The switch of Setup: each level is chosen by exactly its own name, in
      any case, and Info by every other string. */
  function ParseLevel(name: string): (l: Level)
    ensures l == Debug <==> ToLower(name) == "debug"
    ensures l == Warn <==> ToLower(name) == "warn"
    ensures l == Error <==> ToLower(name) == "error"
    ensures l == Info <==> ToLower(name) !in {"debug", "warn", "error"}
  {
    var n := ToLower(name);
    if n == "debug" then Debug
    else if n == "warn" then Warn
    else if n == "error" then Error
    else Info
  }

  /** Case does not matter. */
  lemma ParseLevelIgnoresCase(name: string)
    ensures ParseLevel(ToLower(name)) == ParseLevel(name)
  {
    ToLowerIdempotent(name);
  }

  /** "WARN", "Error" and "DeBuG" select their levels; "info" and "" give Info. */
  lemma ParseLevelExamples()
    ensures ParseLevel("WARN") == Warn
    ensures ParseLevel("Error") == Error
    ensures ParseLevel("DeBuG") == Debug
    ensures ParseLevel("") == Info && ParseLevel("warning") == Info
  {
    LowersTo("WARN", "warn");
    LowersTo("Error", "error");
    LowersTo("DeBuG", "debug");
    LowersTo("warning", "warning");
  }

  lemma LowersTo(s: string, t: string)
    requires |s| == |t| && forall i :: 0 <= i < |s| ==> LowerChar(s[i]) == t[i]
    ensures ToLower(s) == t
  {
  }
}
