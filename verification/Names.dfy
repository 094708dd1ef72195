/** The strings the compiler uses for names. */
module Names {
  import opened IR
  import E = Encoders

  const PREFIX := "__for_idx_"

  /** A name a program may use: none of the compiler's own. */
  predicate UserName(x: string) {
    !(PREFIX <= x)
  }

  /** A loop index is named after a label, which is `L` and a number. */
  function NameText(n: Name): string {
    match n
    case Local(x) => x
    case LoopIndex(k) => PREFIX + "L" + E.Decimal(k)
  }

  predicate Free(n: Name) {
    n.Local? ==> UserName(n.id)
  }

  /** Names of a program and indices of its loops are never the same string. */
  lemma NamesApart(m: Name, n: Name)
    requires Free(m) && Free(n) && NameText(m) == NameText(n)
    ensures m == n
  {
    hide E.Decimal, PREFIX;
    if m.LoopIndex? && n.LoopIndex? {
      var a, b := E.Decimal(m.lbl), E.Decimal(n.lbl);
      assert a == NameText(m)[|PREFIX| + 1..] && b == NameText(n)[|PREFIX| + 1..];
      E.DecimalBack(m.lbl);
      E.DecimalBack(n.lbl);
    } else if m.LoopIndex? {
      IndexStarts(m.lbl);
    } else if n.LoopIndex? {
      IndexStarts(n.lbl);
    }
  }

  lemma IndexStarts(k: nat)
    ensures PREFIX <= NameText(LoopIndex(k))
  {
  }

  /** A program that uses such a name itself uses the index of a loop. */
  lemma NamesCollide(k: nat)
    ensures var x := NameText(LoopIndex(k)); !UserName(x) && NameText(Local(x)) == NameText(LoopIndex(k))
  {
  }
}
