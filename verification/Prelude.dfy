/** Wrappers shared by the models. */
module Prelude {

  datatype Option<+T> = None | Some(value: T)

  /** A thrown error is a `Failure`; the state it leaves behind is the unchanged one. */
  datatype Result<+T, +E> = Success(value: T) | Failure(error: E)

  function Max(x: real, y: real): real { if x >= y then x else y }

  function Min(x: real, y: real): real { if x <= y then x else y }
}

/** Text shared by the models of the Python sources. */
module Text {
  /** The characters Python strips as white space. */
  predicate Blank(c: char) {
    || '\U{9}' <= c <= '\U{D}' || '\U{1C}' <= c <= '\U{20}' || c == '\U{85}' || c == '\U{A0}'
    || c == '\U{1680}' || '\U{2000}' <= c <= '\U{200A}' || c == '\U{2028}' || c == '\U{2029}'
    || c == '\U{202F}' || c == '\U{205F}' || c == '\U{3000}'
  }
}
