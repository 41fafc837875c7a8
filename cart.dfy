/**
 * The cart line as the cart API returns it, and the subtotal that both the cart
 * page and the checkout page compute with
 * `items.reduce((sum, item) => sum + item.price * item.quantity, 0)`.
 */
module Cart {
  import opened Seqs

  datatype CartLine = CartLine(productId: string, name: string, price: real, quantity: int, image: string)

  function LineTotal(line: CartLine): real {
    line.price * line.quantity as real
  }

  /** The left-to-right `reduce` of the line totals, starting from 0. */
  function Subtotal(lines: seq<CartLine>): real {
    if lines == [] then 0.0 else Subtotal(lines[..|lines| - 1]) + LineTotal(lines[|lines| - 1])
  }

  /** The sum of the line totals, added from the front: an independent definition of the same total. */
  function Sum(lines: seq<CartLine>): real {
    if lines == [] then 0.0 else LineTotal(lines[0]) + Sum(lines[1..])
  }

  lemma {:induction false} SubtotalAppend(a: seq<CartLine>, b: seq<CartLine>)
    ensures Subtotal(a + b) == Subtotal(a) + Subtotal(b)
  {
    if b != [] {
      var b' := b[..|b| - 1];
      assert (a + b)[..|a + b| - 1] == a + b';
      SubtotalAppend(a, b');
    } else {
      assert a + b == a;
    }
  }

  /** The `reduce` adds up exactly the line totals, whatever the order of addition. */
  lemma {:induction false} SubtotalIsSum(lines: seq<CartLine>)
    ensures Subtotal(lines) == Sum(lines)
  {
    if lines != [] {
      SubtotalIsSum(lines[1..]);
      SubtotalAppend([lines[0]], lines[1..]);
      assert [lines[0]] + lines[1..] == lines;
      assert Subtotal([lines[0]]) == LineTotal(lines[0]) by {
        assert [lines[0]][..0] == [];
      }
    }
  }

  /** With non-negative prices and quantities the subtotal is never negative. */
  lemma {:induction false} SubtotalNonNegative(lines: seq<CartLine>)
    requires forall l :: l in lines ==> l.price >= 0.0 && l.quantity >= 0
    ensures Subtotal(lines) >= 0.0
  {
    if lines != [] {
      SubtotalNonNegative(lines[..|lines| - 1]);
      assert lines[|lines| - 1] in lines;
    }
  }

  /** Splitting the lines by any condition splits the subtotal the same way. */
  lemma {:induction false} SubtotalOfPartition(lines: seq<CartLine>, keep: CartLine -> bool)
    ensures Subtotal(lines) == Subtotal(Filter(lines, keep)) + Subtotal(Filter(lines, l => !keep(l)))
  {
    SubtotalIsSum(lines);
    SumOfPartition(lines, keep);
    SubtotalIsSum(Filter(lines, keep));
    SubtotalIsSum(Filter(lines, l => !keep(l)));
  }

  lemma {:induction false} SumOfPartition(lines: seq<CartLine>, keep: CartLine -> bool)
    ensures Sum(lines) == Sum(Filter(lines, keep)) + Sum(Filter(lines, l => !keep(l)))
  {
    if lines != [] {
      SumOfPartition(lines[1..], keep);
      var drop := l => !keep(l);
      if keep(lines[0]) {
        assert ([lines[0]] + Filter(lines[1..], keep))[1..] == Filter(lines[1..], keep);
      } else {
        assert ([lines[0]] + Filter(lines[1..], drop))[1..] == Filter(lines[1..], drop);
      }
    }
  }
}
