/**
 * The register schema shared by the Hewalex device models: the closed set of
 * register type tags, one register definition (type, name or flag-slot list,
 * description, optional option list), and option validation.
 */
module Registers {

  datatype Option<T> = None | Some(value: T)

  datatype Result<T> = Ok(value: T) | Err(error: Error)

  /** The failure a lookup in a register table can report. */
  datatype Error = UnknownRegister

  /** The value shapes a register can hold; one per `'type'` tag of the table. */
  datatype RegType = Date | Time | Te10 | Bool | Word | Mask | Tprg

  /** The string tag that names a register type in the table. */
  function TypeTag(t: RegType): string
  {
    match t
    case Date => "date"
    case Time => "time"
    case Te10 => "te10"
    case Bool => "bool"
    case Word => "word"
    case Mask => "mask"
    case Tprg => "tprg"
  }

  /** Reads a type tag back; any other string is not a register type. */
  function ParseType(s: string): (r: Option<RegType>)
    ensures r.Some? ==> TypeTag(r.value) == s
    ensures r.None? ==> forall t :: TypeTag(t) != s
  {
    if s == "date" then Some(Date)
    else if s == "time" then Some(Time)
    else if s == "te10" then Some(Te10)
    else if s == "bool" then Some(Bool)
    else if s == "word" then Some(Word)
    else if s == "mask" then Some(Mask)
    else if s == "tprg" then Some(Tprg)
    else None
  }

  lemma TypeTagRoundTrip(t: RegType)
    ensures ParseType(TypeTag(t)) == Some(t)
  {
  }

  /**
   * The `'name'` entry of a definition: a plain register name, or, for a mask
   * register, the ordered flag names of its bits, `None` marking an unused bit.
   */
  datatype Label = Name(text: string) | Flags(slots: seq<Option<string>>)

  /**
   * One register of a table: its value type, its name (or flag slots) and,
   * when the register restricts its values, the ordered list of legal values.
   */
  datatype RegDef = RegDef(kind: RegType, name: Label, options: Option<seq<int>>)

  /** The flag names bound in a slot list; unused (`None`) slots bind none. */
  function SlotNames(slots: seq<Option<string>>): set<string>
  {
    set i | 0 <= i < |slots| && slots[i].Some? :: slots[i].value
  }

  /** Every name a definition introduces: its own name, or the names of its used bits. */
  function NamesOf(d: RegDef): set<string>
  {
    match d.name
    case Name(n) => {n}
    case Flags(slots) => SlotNames(slots)
  }

  /** A value may be written when the register declares no options, or the value is one of them. */
  predicate Accepts(d: RegDef, v: int)
  {
    d.options.None? || v in d.options.value
  }

  predicate Ascending(s: seq<int>)
  {
    forall i | 0 < i < |s| :: s[i - 1] < s[i]
  }

  /** Two ascending runs, the first ending below the start of the second, form one ascending run. */
  lemma AscendingConcat(s: seq<int>, t: seq<int>)
    requires Ascending(s) && Ascending(t)
    requires s != [] && t != [] ==> s[|s| - 1] < t[0]
    ensures Ascending(s + t)
  {
    forall i | 0 < i < |s + t| ensures (s + t)[i - 1] < (s + t)[i] {
      if i == |s| && s != [] {
        assert (s + t)[i - 1] == s[|s| - 1] && (s + t)[i] == t[0];
      }
    }
  }

  /** Every element of an ascending run lies between its first and its last element. */
  lemma AscendingBounds(s: seq<int>)
    requires Ascending(s) && s != []
    ensures forall v | v in s :: s[0] <= v <= s[|s| - 1]
  {
    forall v | v in s ensures s[0] <= v <= s[|s| - 1] {
      var k :| 0 <= k < |s| && s[k] == v;
      if 0 < k {
        AscendingBelow(s, 0, k);
      }
      if k < |s| - 1 {
        AscendingBelow(s, k, |s| - 1);
      }
    }
  }

  /** A value strictly between two neighbours of an ascending run is not in it. */
  lemma AscendingGap(s: seq<int>, k: nat, v: int)
    requires Ascending(s) && k + 1 < |s| && s[k] < v < s[k + 1]
    ensures v !in s
  {
    if v in s {
      var j :| 0 <= j < |s| && s[j] == v;
      if j < k {
        AscendingBelow(s, j, k);
      } else if k + 1 < j {
        AscendingBelow(s, k + 1, j);
      }
    }
  }

  function Elems(s: seq<int>): set<int>
  {
    set x | x in s
  }

  lemma {:induction false} AscendingBelow(s: seq<int>, i: nat, j: nat)
    requires Ascending(s) && i < j < |s|
    ensures s[i] < s[j]
    decreases j - i
  {
    if i + 1 < j {
      AscendingBelow(s, i, j - 1);
    }
  }

  /** Every element before the last of an ascending run is below the last. */
  lemma AscendingLast(s: seq<int>)
    requires Ascending(s) && s != []
    ensures s[|s| - 1] !in Elems(s[..|s| - 1])
  {
    var t, last := s[..|s| - 1], s[|s| - 1];
    forall x | x in Elems(t) ensures x < last {
      var k :| 0 <= k < |t| && t[k] == x;
      AscendingBelow(s, k, |s| - 1);
    }
  }

  /** A strictly ascending sequence has no repeats: it has as many distinct elements as entries. */
  lemma {:induction false} AscendingCard(s: seq<int>)
    requires Ascending(s)
    ensures |Elems(s)| == |s|
  {
    if s != [] {
      var t, last := s[..|s| - 1], s[|s| - 1];
      AscendingCard(t);
      AscendingLast(s);
      assert s == t + [last];
      assert Elems(s) == Elems(t) + {last};
    }
  }

  /**
   * What the table demands of one definition: the flag-slot list appears
   * exactly on mask registers and fits a 16-bit word, and an option list is a
   * non-empty, strictly ascending (so repeat-free) list of values.
   */
  predicate WellFormedDef(d: RegDef)
  {
    && (d.kind == Mask <==> d.name.Flags?)
    && (d.name.Flags? ==> |d.name.slots| <= 16)
    && (d.options.Some? ==> |d.options.value| > 0 && Ascending(d.options.value))
  }
}
