/** The closed set of rendering backends `generate_captcha` dispatches to by name. */
module Backends {
  import opened Errors

  datatype Backend = Captcha | Pillow | Gvcode

  /** The key under which each backend is registered in the lookup table. */
  function Name(b: Backend): string
  {
    match b
    case Captcha => "captcha"
    case Pillow => "pillow"
    case Gvcode => "gvcode"
  }

  /** `lib_map.get(lib)`: the backend registered under `lib`, or none. */
  function Lookup(lib: string): (r: Option<Backend>)
    ensures r.Some? <==> lib in {"captcha", "pillow", "gvcode"}
    ensures r.Some? ==> Name(r.value) == lib
  {
    if lib == "captcha" then Some(Captcha)
    else if lib == "pillow" then Some(Pillow)
    else if lib == "gvcode" then Some(Gvcode)
    else None
  }

  /** Looking up a backend's own name finds that backend. */
  lemma LookupName(b: Backend)
    ensures Lookup(Name(b)) == Some(b)
  {
    match b
    case Captcha =>
    case Pillow =>
    case Gvcode =>
  }
}
