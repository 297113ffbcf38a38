/** The keyboard adapter: which key names are bound, which input flag each one
    drives, and what a key-down or key-up event does to the four flags. */
module Keys {

  datatype Option<T> = None | Some(value: T)

  /** The key identifier carried by a keyboard event, as far as the bindings
      can tell keys apart. */
  datatype Key = ArrowUp | ArrowDown | ArrowLeft | ArrowRight | Other(name: string)

  /** The four input flags of the motion state. */
  datatype Flag = Up | Down | Left | Right

  datatype Input = Input(up: bool, down: bool, left: bool, right: bool)

  const NoInput := Input(false, false, false, false)

  /** Reads the key identifier of an event: the four arrow names are
      recognised, every other name stays an unmapped key. */
  function KeyOf(name: string): (k: Key)
    ensures k == ArrowUp <==> name == "ArrowUp"
    ensures k == ArrowDown <==> name == "ArrowDown"
    ensures k == ArrowLeft <==> name == "ArrowLeft"
    ensures k == ArrowRight <==> name == "ArrowRight"
    ensures k.Other? ==> k.name == name
  {
    if name == "ArrowUp" then ArrowUp
    else if name == "ArrowDown" then ArrowDown
    else if name == "ArrowLeft" then ArrowLeft
    else if name == "ArrowRight" then ArrowRight
    else Other(name)
  }

  /** The binding table. The vertical arrows are crossed: ArrowUp drives the
      `down` flag and ArrowDown drives the `up` flag. */
  function Binding(k: Key): (r: Option<Flag>)
    ensures r.None? <==> k.Other?
  {
    match k
    case ArrowUp => Some(Down)
    case ArrowDown => Some(Up)
    case ArrowLeft => Some(Left)
    case ArrowRight => Some(Right)
    case Other(_) => None
  }

  /** No two keys drive the same flag. */
  lemma BindingInjective(k1: Key, k2: Key)
    requires Binding(k1) == Binding(k2) && Binding(k1).Some?
    ensures k1 == k2
  {
  }

  function Get(i: Input, f: Flag): bool
  {
    match f
    case Up => i.up
    case Down => i.down
    case Left => i.left
    case Right => i.right
  }

  /** Assigns one flag and leaves the other three alone. */
  function Set(i: Input, f: Flag, v: bool): (r: Input)
    ensures Get(r, f) == v
    ensures forall g :: g != f ==> Get(r, g) == Get(i, g)
  {
    match f
    case Up => i.(up := v)
    case Down => i.(down := v)
    case Left => i.(left := v)
    case Right => i.(right := v)
  }

  /** One keyboard event: `pressed` is true for key-down and false for key-up.
      A bound key sets its flag to `pressed`; an unbound key changes nothing. */
  function ApplyKey(i: Input, k: Key, pressed: bool): (r: Input)
    ensures k == ArrowUp ==> r == i.(down := pressed)
    ensures k == ArrowDown ==> r == i.(up := pressed)
    ensures k == ArrowLeft ==> r == i.(left := pressed)
    ensures k == ArrowRight ==> r == i.(right := pressed)
    ensures k.Other? ==> r == i
  {
    match Binding(k)
    case None => i
    case Some(f) => Set(i, f, pressed)
  }

  /** The crossed wiring: pressing ArrowUp from no input holds `down` only, and
      pressing ArrowDown holds `up` only. */
  lemma ArrowUpDrivesDown()
    ensures ApplyKey(NoInput, ArrowUp, true) == Input(false, true, false, false)
    ensures ApplyKey(NoInput, ArrowDown, true) == Input(true, false, false, false)
  {
  }

  /** Only the flag bound to the key can change. */
  lemma ApplyKeyTouchesOnlyBoundFlag(i: Input, k: Key, pressed: bool, g: Flag)
    requires Binding(k) != Some(g)
    ensures Get(ApplyKey(i, k, pressed), g) == Get(i, g)
  {
  }

  /** The last of two events on the same key decides its flag; in particular a
      repeated key-down is the same as a single one. */
  lemma LastEventWins(i: Input, k: Key, p: bool, q: bool)
    ensures ApplyKey(ApplyKey(i, k, p), k, q) == ApplyKey(i, k, q)
  {
  }

  /** Events on keys bound to different flags, or on unbound keys, commute. */
  lemma DistinctKeysCommute(i: Input, k1: Key, k2: Key, p: bool, q: bool)
    requires Binding(k1) != Binding(k2) || Binding(k1) == None
    ensures ApplyKey(ApplyKey(i, k1, p), k2, q) == ApplyKey(ApplyKey(i, k2, q), k1, p)
  {
  }

  /** Pressing and then releasing a key restores the flags whenever its flag was
      off before the press. */
  lemma PressReleaseRestores(i: Input, k: Key)
    requires forall f :: Binding(k) == Some(f) ==> !Get(i, f)
    ensures ApplyKey(ApplyKey(i, k, true), k, false) == i
  {
  }
}
