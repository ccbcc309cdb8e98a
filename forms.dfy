/** Request parameters: a form or query string is a map from field name
    to raw text. */
module Forms {
  import opened Basics
  import opened Text

  function Param(form: map<string, string>, key: string): Option<string>
  {
    if key in form then Some(form[key]) else None
  }

  /** `request.POST.get(key, "")`. */
  function Posted(form: map<string, string>, key: string): string
  {
    if key in form then form[key] else ""
  }

  /** `request.POST.get(key, default)`. */
  function GetOr(form: map<string, string>, key: string, default: string): string
  {
    if key in form then form[key] else default
  }

  /** A posted checkbox: present with a non-empty value. */
  predicate Ticked(form: map<string, string>, key: string)
  {
    key in form && form[key] != ""
  }

  /** `request.POST.get(key, default)` passed to `int()`: a missing value
      gives the default; present text must parse (`None` is the
      `ValueError`). */
  function IntParam(form: map<string, string>, key: string, default: int): (r: Option<int>)
    ensures key !in form ==> r == Some(default)
    ensures key in form ==> r == ParseInt(form[key])
  {
    if key in form then ParseInt(form[key]) else Some(default)
  }
}
