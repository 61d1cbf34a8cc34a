/** Ruby values as the job sees them: the few shapes that reach its status
    messages and its attribute hash, with Ruby's truthiness and the
    ActiveSupport `blank?` / `present?` tests the job branches on. */
module RubyValues {

  datatype Option<+T> = None | Some(value: T)

  /** A Ruby value. `MessageHash(text)` is the one-entry hash `{message: text}`,
      `Token(n)` any other object (such as the value an actor returns). */
  datatype Value =
    | Nil
    | Bool(b: bool)
    | Str(s: string)
    | List(items: seq<string>)
    | MessageHash(text: string)
    | Token(n: nat)

  /** Only `nil` and `false` are falsy in Ruby. */
  predicate Truthy(v: Value) {
    !(v.Nil? || v == Bool(false))
  }

  /** The ASCII characters matched by `[[:space:]]`. */
  predicate IsSpace(c: char) {
    c == ' ' || c == '\t' || c == '\n' || c == '\r' || c == '\U{B}' || c == '\U{C}'
  }

  /** `String#blank?`: empty or whitespace only. */
  predicate BlankString(s: string) {
    forall i :: 0 <= i < |s| ==> IsSpace(s[i])
  }

  /** ActiveSupport's `blank?`: nil and false are blank, a string when it is
      whitespace only, an array when it is empty; a non-empty hash and any
      other object are not blank. */
  predicate Blank(v: Value) {
    match v
    case Nil => true
    case Bool(b) => !b
    case Str(s) => BlankString(s)
    case List(items) => |items| == 0
    case MessageHash(_) => false
    case Token(_) => false
  }

  predicate Present(v: Value) {
    !Blank(v)
  }

  /** `present?` of a nullable string column. */
  predicate PresentId(id: Option<string>) {
    id.Some? && !BlankString(id.value)
  }

  /** `hash[key]`: a missing key reads as nil. */
  function Get(m: map<string, Value>, key: string): (v: Value)
    ensures key !in m ==> v == Nil
    ensures key in m ==> v == m[key]
  {
    if key in m then m[key] else Nil
  }
}
