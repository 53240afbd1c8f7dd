/** What both document builders decide before they walk: whether the input is
    a mapping at all, and which mapping is walked. */
module Selection {
  import opened JsonValue

  /** Why a builder raises instead of producing a document. */
  datatype BuildError =
    | NotAMapping          // `json_data` is not a dict: `in`, `[...]` or `.items()` raises
    | SectionsNotAMapping  // `json_data['sections']` has no `.items()`
    | TitleNotText         // python-docx iterates over the title value, which is not a string, list of strings or dict
    | DocxRefused          // python-docx raises `ValueError`: a heading level outside 0..9, or text lxml will not store

  datatype Result<T> = Ok(value: T) | Err(error: BuildError)

  /** The top-level mapping, or the error every non-dict input meets: a string
      or list goes through the substring or element test of `'title' in ...`
      and then fails on `[...]` or `.items()`, and numbers, booleans and
      `None` already fail on `in`. */
  function TopLevel(data: Json): (r: Result<Fields>)
    ensures r.Ok? <==> data.Obj?
    ensures r.Ok? ==> Obj(r.value) == data
    ensures r.Err? ==> r.error == NotAMapping
  {
    if data.Obj? then Ok(data.fields) else Err(NotAMapping)
  }

  /** The mapping that is walked: the value under `sections` when that key is
      present (which must then itself be a mapping), else the whole input. */
  function Walked(fields: Fields): (r: Result<Fields>)
    ensures Lookup(fields, "sections").None? ==> r == Ok(fields)
    ensures Lookup(fields, "sections").Some? ==>
              (r.Ok? <==> Lookup(fields, "sections").value.Obj?)
    ensures r.Ok? && HasKey(fields, "sections") ==>
              Obj(r.value) == Lookup(fields, "sections").value
    ensures r.Err? ==> r.error == SectionsNotAMapping
  {
    match Lookup(fields, "sections")
    case None => Ok(fields)
    case Some(s) => if s.Obj? then Ok(s.fields) else Err(SectionsNotAMapping)
  }
}
