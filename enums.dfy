/** enums.go: the action, language and output-type enumerations and their
    string forms. Go's `panic` on a value outside a switch is modelled as `None`. */
module Enums {
  import opened Wrappers

  // ---------------------------------------------------------------- Action

  datatype Action = DefaultAction | Building | Cleaning | Initing | Installing

  /** Action.String */
  function ActionString(a: Action): string {
    match a
    case DefaultAction => "default"
    case Building => "build"
    case Cleaning => "clean"
    case Initing => "init"
    case Installing => "install"
  }

  /** The five actions have five different names. */
  lemma ActionStringInjective(a: Action, b: Action)
    ensures ActionString(a) == ActionString(b) <==> a == b
  {
  }

  // ---------------------------------------------------------------- Language

  datatype Language = UnknownLanguage | CLanguage | CplusplusLanguage | ObjcLanguage | ObjcplusplusLanguage

  /** Language.String */
  function LanguageString(l: Language): string {
    match l
    case UnknownLanguage => "language not recognized"
    case CLanguage => "c"
    case CplusplusLanguage => "c++"
    case ObjcLanguage => "objc"
    case ObjcplusplusLanguage => "objc++"
  }

  /** The switch in Language.Set: the language a flag argument names, if any. */
  function ParseLanguage(arg: string): (r: Option<Language>)
    ensures r.Some? ==> r.value != UnknownLanguage && LanguageString(r.value) == arg
  {
    match arg
    case "c" => Some(CLanguage)
    case "c++" => Some(CplusplusLanguage)
    case "objc" => Some(ObjcLanguage)
    case "objc++" => Some(ObjcplusplusLanguage)
    case _ => None
  }

  /** Set(l.String()) gives back l for every known language; the name of
      UnknownLanguage is not accepted. */
  lemma LanguageRoundTrip(l: Language)
    ensures l != UnknownLanguage ==> ParseLanguage(LanguageString(l)) == Some(l)
    ensures l == UnknownLanguage ==> ParseLanguage(LanguageString(l)) == None
  {
  }

  /** Set accepts exactly the four language names. */
  lemma ParseLanguageAccepts(arg: string)
    ensures ParseLanguage(arg).Some? <==> arg in ["c", "c++", "objc", "objc++"]
  {
  }

  /** A `Language` variable that a command-line flag sets (flag.Value). */
  class LanguageFlag {
    var lang: Language

    constructor ()
      ensures lang == UnknownLanguage
    {
      lang := UnknownLanguage;
    }

    /** Language.Set: store the named language, or report the argument and
        leave the variable as it was. */
    method Set(arg: string) returns (err: Option<string>)
      modifies this
      ensures err.None? <==> ParseLanguage(arg).Some?
      ensures err.None? ==> lang == ParseLanguage(arg).value && LanguageString(lang) == arg
      ensures err.Some? ==> lang == old(lang) && err.value == "\"" + arg + "\" is not a valid language"
    {
      match arg {
        case "c" => lang := CLanguage;
        case "c++" => lang := CplusplusLanguage;
        case "objc" => lang := ObjcLanguage;
        case "objc++" => lang := ObjcplusplusLanguage;
        case _ =>
          return Some("\"" + arg + "\" is not a valid language");
      }
      return None;
    }
  }

  // ---------------------------------------------------------------- OutputType

  /** OutputType. `Plugin` is referenced by dmake.go and util.go but has no
      case in this file's switches. */
  datatype OutputType = UnknownOutputType | DllOutputType | ExeOutputType | LibOutputType | PluginOutputType

  /** OutputType.String; `None` where it panics. */
  function OutputTypeString(t: OutputType): Option<string> {
    match t
    case UnknownOutputType => Some("unknown")
    case DllOutputType => Some("dll")
    case ExeOutputType => Some("exe")
    case LibOutputType => Some("lib")
    case PluginOutputType => None
  }

  /** OutputType.DccArgument; `None` where it panics. */
  function DccArgument(t: OutputType): Option<string> {
    match t
    case DllOutputType => Some("--dll")
    case ExeOutputType => Some("--exe")
    case LibOutputType => Some("--lib")
    case _ => None
  }

  /** The dcc option for a known type is "--" followed by the type's name, and
      DccArgument panics exactly on Unknown and on Plugin. */
  lemma DccArgumentIsDashedName(t: OutputType)
    ensures DccArgument(t).None? <==> t == UnknownOutputType || t == PluginOutputType
    ensures DccArgument(t).Some? ==> OutputTypeString(t).Some? && DccArgument(t).value == "--" + OutputTypeString(t).value
  {
  }
}
