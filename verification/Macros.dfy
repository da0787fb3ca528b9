/**
 * The user macro registry and the `define` builtin that fills it. The
 * registry is a single shared name-to-template map; `define` records a
 * template under a name and produces no text of its own.
 */
module Macros {
  import opened Diagnostics

  class UserMacroRegistry {
    var macros: map<string, string>

    constructor ()
      ensures macros == map[]
    {
      macros := map[];
    }

    /**
     * `define_macro`: with exactly two arguments, binds the first to the
     * second (replacing any earlier template of that name) and expands to
     * the empty string; with any other count it fails and changes nothing.
     */
    method DefineMacro(args: seq<string>, lineNo: nat) returns (r: Result<string, AssemblyError>)
      modifies this
      ensures |args| != 2 ==> r == Err(AssemblyError(MacroParamCount(2, |args|), lineNo, None))
      ensures |args| != 2 ==> macros == old(macros)
      ensures |args| == 2 ==> r == Ok("")
      ensures |args| == 2 ==> args[0] in macros && macros[args[0]] == args[1]
      ensures |args| == 2 ==> macros.Keys == old(macros).Keys + {args[0]}
      ensures |args| == 2 ==> forall name | name in old(macros) && name != args[0] :: macros[name] == old(macros)[name]
    {
      if |args| != 2 {
        return Err(AssemblyError(MacroParamCount(2, |args|), lineNo, None));
      }
      var macroName, macroContent := args[0], args[1];
      macros := macros[macroName := macroContent];
      return Ok("");
    }
  }

  /** The builtin macros. */
  datatype Builtin = Define

  const MACROS: map<string, Builtin> := map["define" := Define]

  /** `define` is the only builtin macro. */
  lemma BuiltinTable()
    ensures MACROS.Keys == {"define"} && MACROS["define"] == Define
  {
  }
}
