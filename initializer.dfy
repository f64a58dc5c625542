/**
 * The one piece of the compiler initialisation that does not call into the
 * compiler library: choosing the assembly kind from the `/target:` value.
 */
module Initializer {
  import opened Wrappers
  import opened Text
  import opened Tokens

  datatype AssemblyKind = ConsoleApplication | WindowsApplication | DynamicallyLinkedLibrary

  /**
   * A missing target counts as the empty string; the lower-cased target `exe`
   * gives a console application, `winexe` a windows application, anything
   * else a library.
   */
  function GetAssemblyKindFrom(target: Option<string>): (kind: AssemblyKind)
    ensures kind == ConsoleApplication <==> Lower(Coerce(target)) == "exe"
    ensures kind == WindowsApplication <==> Lower(Coerce(target)) == "winexe"
    ensures kind == DynamicallyLinkedLibrary <==> Lower(Coerce(target)) !in {"exe", "winexe"}
  {
    var c := Coerce(target);
    match Lower(c)
    case "exe" => ConsoleApplication
    case "winexe" => WindowsApplication
    case _ => DynamicallyLinkedLibrary
  }

  /** The kind does not depend on letter case: an upper-cased target gives the same kind. */
  lemma UpperCaseSameKind(t: string)
    ensures GetAssemblyKindFrom(Some(Upper(t))) == GetAssemblyKindFrom(Some(t))
  {
    LowerOfUpper(t);
  }

  /** Targets that lower-case alike give the same kind. */
  lemma SameLowerSameKind(s: string, t: string)
    requires Lower(s) == Lower(t)
    ensures GetAssemblyKindFrom(Some(s)) == GetAssemblyKindFrom(Some(t))
  {
  }

  /** A missing target and the empty target both give a library. */
  lemma MissingTargetIsLibrary()
    ensures GetAssemblyKindFrom(None) == DynamicallyLinkedLibrary
    ensures GetAssemblyKindFrom(Some("")) == DynamicallyLinkedLibrary
  {
  }

  /** `exe` in any case is a console application, `winexe` in any case a windows application. */
  lemma NamedKinds()
    ensures GetAssemblyKindFrom(Some("exe")) == ConsoleApplication
    ensures GetAssemblyKindFrom(Some("EXE")) == ConsoleApplication
    ensures GetAssemblyKindFrom(Some("WinExe")) == WindowsApplication
    ensures GetAssemblyKindFrom(Some("library")) == DynamicallyLinkedLibrary
  {
  }
}
