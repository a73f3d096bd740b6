/** The title the navigation bar shows for the current path. */
module Navbar {
  import Text

  /** `formatPath`: the path without its leading character, the next one upper-cased. */
  function FormatPath(path: string): (r: string)
    ensures |path| <= 1 ==> r == ""
    ensures |path| >= 1 ==> |r| == |path| - 1
    ensures |path| >= 2 ==> r[0] == Text.UpperChar(path[1]) && r[1..] == path[2..]
  {
    var withoutFirst := if |path| == 0 then "" else path[1..];
    if withoutFirst == [] then "" else [Text.UpperChar(withoutFirst[0])] + withoutFirst[1..]
  }

  /** The heading: "Dashboard" for the root path, the formatted path elsewhere. */
  function Title(path: string): (r: string)
    ensures path == "/" ==> r == "Dashboard"
    ensures path != "/" ==> r == FormatPath(path)
  {
    if path == "/" then "Dashboard" else FormatPath(path)
  }

  /** A path whose second character is already upper case loses only its first character. */
  lemma FormatKeepsCapitalised(path: string)
    requires |path| >= 2 && Text.UpperChar(path[1]) == path[1]
    ensures FormatPath(path) == path[1..]
  {
  }
}
