/** The top-level id helper of the storage service: `id.removePrefix("{").removeSuffix("}")`. */
module StorageIds {

  /** Kotlin's `removePrefix(prefix)`: drops `prefix` if the string starts with it. */
  function RemovePrefix(s: string, prefix: string): string
  {
    if prefix <= s then s[|prefix|..] else s
  }

  /** Kotlin's `removeSuffix(suffix)`: drops `suffix` if the string ends with it. */
  function RemoveSuffix(s: string, suffix: string): string
  {
    if |suffix| <= |s| && s[|s| - |suffix|..] == suffix then s[..|s| - |suffix|] else s
  }

  /** Strips at most one leading `{` and then at most one trailing `}`: the result is the slice
      of `id` that starts after a leading `{` (if there is one) and stops before a trailing `}`
      (if one is left after that), so it loses at most two characters. */
  function RemoveCurlyBrackets(id: string): (r: string)
    ensures |id| - 2 <= |r| <= |id|
    ensures var start := if |id| > 0 && id[0] == '{' then 1 else 0;
      var stop := if |id| - start > 0 && id[|id| - 1] == '}' then 1 else 0;
      r == id[start..|id| - stop]
    ensures (id == [] || id[0] != '{') && (id == [] || id[|id| - 1] != '}') ==> r == id
  {
    RemoveSuffix(RemovePrefix(id, "{"), "}")
  }

  /** Wrapping any string in one pair of braces and stripping them gives it back. */
  lemma UnwrapWrapped(x: string)
    ensures RemoveCurlyBrackets("{" + x + "}") == x
  {
    var w := "{" + x + "}";
    assert RemovePrefix(w, "{") == x + "}";
    assert (x + "}")[..|x|] == x;
  }

  /** A trailing `}` is stripped only if there is one: an id with an opening brace and no
      closing one keeps its last character. */
  lemma KeepsUnmatchedEnd()
    ensures RemoveCurlyBrackets("{abc") == "abc"
    ensures RemoveCurlyBrackets("abc}") == "abc"
  {
  }

  /** Only one brace is stripped at each end: "{{a}}" becomes "{a}"; a lone "{" becomes "". */
  lemma StripsOneBraceEachEnd()
    ensures RemoveCurlyBrackets("{{a}}") == "{a}"
    ensures RemoveCurlyBrackets("{") == ""
    ensures RemoveCurlyBrackets("a}}") == "a}"
  {
    UnwrapWrapped("{a}");
    assert RemovePrefix("{", "{") == "";
    assert RemovePrefix("a}}", "{") == "a}}";
    assert "a}}"[..2] == "a}";
  }
}
