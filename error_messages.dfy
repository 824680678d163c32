/**
 * The error list of `post_nuevo_medico` and `post_editar_cliente` in
 * app/main.py: for each validation error, its field (the first element of its
 * location, or `campo` when the location is empty) capitalised, a colon and a
 * space, and the error's message.
 */
module ErrorMessages {
  import opened Letters

  /** One entry of `ValidationError.errors()`: its location (rendered with `str`) and its message. */
  datatype ErrorDetail = ErrorDetail(loc: seq<string>, msg: string)

  /** `str.capitalize()`: the first character raised, every other lowered. */
  function Capitalize(s: string): (r: string)
    ensures |r| == |s|
    ensures |s| > 0 ==> r[0] == ToUpper(s[0])
    ensures forall k :: 0 < k < |s| ==> r[k] == ToLower(s[k])
  {
    if s == [] then [] else [ToUpper(s[0])] + seq(|s| - 1, k requires 0 <= k < |s| - 1 => ToLower(s[k + 1]))
  }

  /** `str(error['loc'][0]) if error['loc'] else 'campo'`. */
  function FieldOf(e: ErrorDetail): (campo: string)
    ensures e.loc != [] ==> campo == e.loc[0]
    ensures e.loc == [] ==> campo == "campo"
  {
    if e.loc != [] then e.loc[0] else "campo"
  }

  /** `f"{campo.capitalize()}: {mensaje}"`. */
  function FormatError(e: ErrorDetail): (r: string)
    ensures |r| == |FieldOf(e)| + 2 + |e.msg|
    ensures r[..|FieldOf(e)|] == Capitalize(FieldOf(e))
    ensures r[|FieldOf(e)|..|FieldOf(e)| + 2] == ": " && r[|FieldOf(e)| + 2..] == e.msg
  {
    Capitalize(FieldOf(e)) + ": " + e.msg
  }

  /**
   * A formatted entry splits back into its capitalised field, the separator
   * and the untouched message; without a location the field reads `Campo`.
   */
  lemma FormatErrorParts(e: ErrorDetail)
    ensures var n := |FieldOf(e)|;
      var r := FormatError(e);
      |r| == n + 2 + |e.msg|
      && r[..n] == Capitalize(FieldOf(e)) && r[n..n + 2] == ": " && r[n + 2..] == e.msg
    ensures e.loc == [] ==> FormatError(e) == "Campo: " + e.msg
    ensures e.loc != [] && e.loc[0] == "nombre" ==> FormatError(e) == "Nombre: " + e.msg
  {
    var f := Capitalize(FieldOf(e));
    var r := FormatError(e);
    assert r == f + ": " + e.msg;
    if e.loc == [] {
      assert f == "Campo";
    }
    if e.loc != [] && e.loc[0] == "nombre" {
      assert f == "Nombre";
    }
  }

  /** The loop appending to `errores`: one entry per error, in order. */
  method FormatErrors(errors: seq<ErrorDetail>) returns (errores: seq<string>)
    ensures |errores| == |errors|
    ensures forall i :: 0 <= i < |errors| ==> errores[i] == FormatError(errors[i])
  {
    errores := [];
    var i := 0;
    while i < |errors|
      invariant 0 <= i <= |errors|
      invariant |errores| == i
      invariant forall j :: 0 <= j < i ==> errores[j] == FormatError(errors[j])
    {
      var campo := FieldOf(errors[i]);
      var mensaje := errors[i].msg;
      errores := errores + [Capitalize(campo) + ": " + mensaje];
      i := i + 1;
    }
  }
}
