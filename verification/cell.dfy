/** The kinds of grid cell and their console symbols (src/map/cell.rs). */
module Cells {

  datatype Cell = Empty | Obstacle | Energy | Mineral | Science

  /** The three kinds a robot can carry and the station can pool. */
  predicate IsResource(c: Cell) {
    c == Energy || c == Mineral || c == Science
  }

  /** The single letter that names a kind on the console. */
  function Letter(c: Cell): char {
    match c
    case Empty => 'E'
    case Obstacle => 'O'
    case Energy => 'P'
    case Mineral => 'M'
    case Science => 'S'
  }

  /** Plain symbol: the kind's letter padded by one space on each side. */
  function ToSymbol(c: Cell): (s: string)
    ensures |s| == 3
    ensures s[0] == ' ' && s[1] == Letter(c) && s[2] == ' '
  {
    match c
    case Empty => " E "
    case Obstacle => " O "
    case Energy => " P "
    case Mineral => " M "
    case Science => " S "
  }

  /** ANSI-coloured symbol; the empty cell is left uncoloured. */
  function ToColoredSymbol(c: Cell): (s: string)
    ensures c != Empty ==> |s| == 13 && s[0] == '\U{1B}' && s[8..12] == "\U{1B}[0m"
  {
    match c
    case Empty => " E "
    case Obstacle => "\U{1B}[90m O \U{1B}[0m "
    case Energy => "\U{1B}[33m P \U{1B}[0m "
    case Mineral => "\U{1B}[35m M \U{1B}[0m "
    case Science => "\U{1B}[36m S \U{1B}[0m "
  }

  /** Each plain symbol shows the kind's letter in the middle, so distinct kinds get distinct symbols. */
  lemma ToSymbolInjective(a: Cell, b: Cell)
    ensures ToSymbol(a)[1] == Letter(a)
    ensures ToSymbol(a) == ToSymbol(b) ==> a == b
  {
    assert ToSymbol(a)[1] == Letter(a);
    assert ToSymbol(b)[1] == Letter(b);
  }

  /** Distinct kinds get distinct coloured symbols. */
  lemma ToColoredSymbolInjective(a: Cell, b: Cell)
    ensures ToColoredSymbol(a) == ToColoredSymbol(b) ==> a == b
  {
    if a != b && ToColoredSymbol(a) == ToColoredSymbol(b) {
      ColoredSymbolShowsSymbol(a);
      ColoredSymbolShowsSymbol(b);
      ToSymbolInjective(a, b);
    }
  }

  /** The coloured symbol embeds the plain one: the same letter is shown with or without colour. */
  lemma ColoredSymbolShowsSymbol(c: Cell)
    ensures c == Empty ==> ToColoredSymbol(c) == ToSymbol(c)
    ensures c != Empty ==> ToColoredSymbol(c)[5..8] == ToSymbol(c)
  {
  }
}
