/**
 * The syntax `z.string().email()` accepts, written out after the regular
 * expression of zod 3 (case-insensitive):
 *   ^(?!\.)(?!.*\.\.)([A-Z0-9_'+\-\.]*)[A-Z0-9_+-]@([A-Z0-9][A-Z0-9\-]*\.)+[A-Z]{2,}$
 * The library's exact expression differs between zod releases; this is one of them.
 */
module EmailSyntax {
  import opened Text

  predicate IsLetter(c: char) {
    ('a' <= c <= 'z') || ('A' <= c <= 'Z')
  }

  predicate IsAlnum(c: char) {
    IsLetter(c) || IsDigit(c)
  }

  /** A character of the local part before its last character: `[A-Z0-9_'+\-\.]`. */
  predicate IsLocalChar(c: char) {
    IsAlnum(c) || c == '_' || c == '\'' || c == '+' || c == '-' || c == '.'
  }

  /** The last character of the local part: `[A-Z0-9_+-]`. */
  predicate IsLocalEnd(c: char) {
    IsAlnum(c) || c == '_' || c == '+' || c == '-'
  }

  predicate LocalPart(p: string) {
    && |p| >= 1
    && p[0] != '.'
    && (forall i :: 0 <= i < |p| ==> IsLocalChar(p[i]))
    && IsLocalEnd(p[|p| - 1])
  }

  /** A domain label before the top-level one: `[A-Z0-9][A-Z0-9\-]*`. */
  predicate Label(l: string) {
    |l| >= 1 && IsAlnum(l[0]) && forall i :: 1 <= i < |l| ==> IsAlnum(l[i]) || l[i] == '-'
  }

  /** The top-level label: `[A-Z]{2,}`. */
  predicate TopLabel(l: string) {
    |l| >= 2 && forall i :: 0 <= i < |l| ==> IsLetter(l[i])
  }

  predicate Domain(d: string) {
    var labels := Split(d, '.');
    && |labels| >= 2
    && (forall i :: 0 <= i < |labels| - 1 ==> Label(labels[i]))
    && TopLabel(labels[|labels| - 1])
  }

  /** No two consecutive dots anywhere: `(?!.*\.\.)`. */
  predicate NoDoubleDot(s: string) {
    forall i :: 0 <= i < |s| - 1 ==> !(s[i] == '.' && s[i + 1] == '.')
  }

  /** `s` is accepted by the email check: exactly one `@` between a local part and a domain. */
  predicate IsEmail(s: string) {
    NoDoubleDot(s)
    && exists at :: 0 <= at < |s| && s[at] == '@' && LocalPart(s[..at]) && '@' !in s[at + 1..] && Domain(s[at + 1..])
  }
}
