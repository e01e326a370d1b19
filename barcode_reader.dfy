/** MockBarcodeReader: hands out the barcodes of a fixed array one by one,
    starting over after the last. */
module BarcodeReading {

  class MockBarcodeReader {
    const barcodes: array<string>
    var index: int
    /** How many reads returned a barcode so far. */
    ghost var readCount: nat

    /** The index stays inside the array and points at the next barcode of the cycle. */
    ghost predicate Valid()
      reads this
    {
      && (barcodes.Length == 0 ==> index == 0 && readCount == 0)
      && (barcodes.Length > 0 ==> 0 <= index < barcodes.Length && index == readCount % barcodes.Length)
    }

    /** The constructor keeps the caller's array; a null array counts as empty. */
    constructor (barcodes: array?<string>)
      ensures Valid()
      ensures barcodes != null ==> this.barcodes == barcodes
      ensures barcodes == null ==> this.barcodes.Length == 0
      ensures index == 0 && readCount == 0
    {
      if barcodes == null {
        this.barcodes := new string[0];
      } else {
        this.barcodes := barcodes;
      }
      index := 0;
      readCount := 0;
    }

    /** Read: "" when there are no barcodes; otherwise the barcode at the index,
        which then moves on by one, wrapping around. The k-th read returns the
        barcode at k modulo the length. */
    method Read() returns (value: string)
      requires Valid()
      modifies this
      ensures Valid()
      ensures barcodes.Length == 0 ==> value == "" && index == old(index) && readCount == old(readCount)
      ensures barcodes.Length > 0 ==>
                && value == barcodes[old(index)]
                && index == (old(index) + 1) % barcodes.Length
                && readCount == old(readCount) + 1
                && value == barcodes[old(readCount) % barcodes.Length]
    {
      if barcodes.Length == 0 {
        return "";
      }
      value := barcodes[index];
      index := (index + 1) % barcodes.Length;
      readCount := readCount + 1;
      ModStep(readCount - 1, barcodes.Length);
    }
  }

  /** Counting on by one moves the remainder on by one, wrapping at n. */
  lemma ModStep(k: nat, n: nat)
    requires n > 0
    ensures (k + 1) % n == (k % n + 1) % n
  {
    var q := k / n;
    var r := k % n;
    assert k == q * n + r;
    if r + 1 < n {
      ModUnique(k + 1, n, q, r + 1);
      ModUnique(r + 1, n, 0, r + 1);
    } else {
      assert k + 1 == (q + 1) * n + 0;
      ModUnique(k + 1, n, q + 1, 0);
      ModUnique(r + 1, n, 1, 0);
    }
  }

  /** A remainder is fixed by any quotient-and-remainder split of the number. */
  lemma ModUnique(k: int, n: int, q: int, r: int)
    requires n > 0 && 0 <= r < n && k == q * n + r
    ensures k % n == r
  {
    var q', r' := k / n, k % n;
    assert k == q' * n + r';
    assert (q - q') * n == r' - r;
    if q > q' {
      ProductAtLeast(q - q', n);
    } else if q' > q {
      ProductAtLeast(q' - q, n);
    }
  }

  lemma ProductAtLeast(d: int, n: int)
    requires d >= 1 && n > 0
    ensures d * n >= n
  {
    assert d * n == (d - 1) * n + n;
    assert (d - 1) * n >= 0;
  }

  /** The reader tests: three barcodes come out in order. */
  method ReaderScenarios()
  {
    var three := new string[3];
    three[0], three[1], three[2] := "PKG1", "PKG2", "PKG3";
    var mock := new MockBarcodeReader(three);
    var r1 := mock.Read();
    var r2 := mock.Read();
    var r3 := mock.Read();
    assert r1 == "PKG1" && r2 == "PKG2" && r3 == "PKG3";
  }

  /** Two barcodes wrap around: the third read gives the first again. */
  method WrapAroundScenario()
  {
    var two := new string[2];
    two[0], two[1] := "A", "B";
    var looping := new MockBarcodeReader(two);
    var a := looping.Read();
    var b := looping.Read();
    var again := looping.Read();
    assert again == "A";
  }

  /** A null array reads as empty. */
  method NullArrayScenario()
  {
    var none := new MockBarcodeReader(null);
    var empty := none.Read();
    assert empty == "";
  }
}
