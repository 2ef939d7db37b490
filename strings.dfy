/** The one string operation the credential check relies on. */
module Strings {

  /** Go's strings.TrimPrefix: removes `prefix` from the front of `s` once,
      if `s` starts with it; otherwise `s` is returned unchanged. */
  function TrimPrefix(s: string, prefix: string): (r: string)
    ensures prefix <= s ==> s == prefix + r
    ensures !(prefix <= s) ==> r == s
    ensures |r| <= |s|
  {
    if prefix <= s then s[|prefix|..] else s
  }
}
