/** Transposition of a matrix of bits whose rows are packed into bytes. */
module Transpose {
  import opened Bits
  import opened Outcomes
  import opened Hashes
  import opened PackedBits

  const KAPPA: nat := 256
  const BATCH_SIZE: nat := 416
  const EXTENDED_BATCH_SIZE: nat := 624

  /** A packed row of EXTENDED_BATCH_SIZE bits. */
  type PRGOutput = b: Bytes | |b| == EXTENDED_BATCH_SIZE / 8 witness seq(EXTENDED_BATCH_SIZE / 8, _ => 0)

  datatype TransposeError = WrongDimensions

  /** (b >> k) & 1 */
  function Entry(b: Byte, k: nat): Byte
    requires k < 8
  {
    PosBound(k);
    (b >> Pos(k)) & 1
  }

  /** x | entry << k */
  function Put(x: Byte, entry: Byte, k: nat): Byte
    requires k < 8
  {
    PosBound(k);
    x | (entry << Pos(k))
  }

  lemma PutAt(x: Byte, b: Byte, c: bv8, r: bv8, n: bv8)
    requires c < 8 && r < 8 && n < 8
    ensures ByteAt(x | (((b >> c) & 1) << r), n) == (ByteAt(x, n) || (n == r && ByteAt(b, c)))
  {}

  lemma PutBit(x: Byte, b: Byte, c: nat, r: nat, n: nat)
    requires c < 8 && r < 8 && n < 8
    ensures ByteBit(Put(x, Entry(b, c), r), n) == (ByteBit(x, n) || (n == r && ByteBit(b, c)))
  {
    hide ByteAt, Pos;
    PosBound(c);
    PosBound(r);
    PosBound(n);
    PutAt(x, b, Pos(c), Pos(r), Pos(n));
    SamePos(n, r);
  }

  lemma SamePos(n: nat, r: nat)
    requires n < 8 && r < 8
    ensures Pos(n) == Pos(r) <==> n == r
  {
    PosInt(n);
    PosInt(r);
  }

  /** The bits of a position (column, row) of the output so far: all before (r, c) in row-major order. */
  ghost predicate Written(input: seq<PRGOutput>, output: array2<Byte>, r: nat, c: nat)
    requires |input| == KAPPA && output.Length0 == BATCH_SIZE && output.Length1 == KAPPA / 8
    reads output
  {
    forall i, j {:trigger WrittenAt(input, output, r, c, i, j)} :: 0 <= i < KAPPA && 0 <= j < BATCH_SIZE ==> WrittenAt(input, output, r, c, i, j)
  }

  ghost predicate WrittenAt(input: seq<PRGOutput>, output: array2<Byte>, r: nat, c: nat, i: nat, j: nat)
    requires |input| == KAPPA && output.Length0 == BATCH_SIZE && output.Length1 == KAPPA / 8
    requires i < KAPPA && j < BATCH_SIZE
    reads output
  {
    ByteBit(output[j, i / 8], i % 8) == ((i < r || (i == r && j < c)) && RowBit(input[i], j))
  }

  method WriteBit(input: seq<PRGOutput>, output: array2<Byte>, r: nat, c: nat)
    requires |input| == KAPPA && output.Length0 == BATCH_SIZE && output.Length1 == KAPPA / 8
    requires r < KAPPA && c < BATCH_SIZE
    requires Written(input, output, r, c)
    modifies output
    ensures Written(input, output, r, c + 1)
  {
    hide ByteBit, Put, Entry;
    var entry := Entry(input[r][c / 8], c % 8);
    label before:
    output[c, r / 8] := Put(output[c, r / 8], entry, r % 8);
    ghost var d := c + 1;
    forall i, j {:trigger WrittenAt(input, output, r, d, i, j)} | 0 <= i < KAPPA && 0 <= j < BATCH_SIZE
      ensures WrittenAt(input, output, r, d, i, j)
    {
      assert old@before(WrittenAt(input, output, r, c, i, j));
      if j == c && i / 8 == r / 8 {
        PutBit(old@before(output[c, r / 8]), input[r][c / 8], c % 8, r % 8, i % 8);
      }
    }
  }

  /** The two inner loops of cut_and_transpose: one row of the input. */
  method WriteRow(input: seq<PRGOutput>, output: array2<Byte>, row_byte: nat, row_bit_within_byte: nat)
    requires |input| == KAPPA && output.Length0 == BATCH_SIZE && output.Length1 == KAPPA / 8
    requires row_byte < KAPPA / 8 && row_bit_within_byte < 8
    requires Written(input, output, 8 * row_byte + row_bit_within_byte, 0)
    modifies output
    ensures Written(input, output, 8 * row_byte + row_bit_within_byte + 1, 0)
  {
    hide Written;
    var row_bit := 8 * row_byte + row_bit_within_byte;
    for column_byte := 0 to BATCH_SIZE / 8
      invariant Written(input, output, row_bit, 8 * column_byte)
    {
      for column_bit_within_byte := 0 to 8
        invariant Written(input, output, row_bit, 8 * column_byte + column_bit_within_byte)
      {
        WriteBit(input, output, row_bit, 8 * column_byte + column_bit_within_byte);
      }
    }
    RowDone(input, output, row_bit);
  }

  lemma RowDone(input: seq<PRGOutput>, output: array2<Byte>, r: nat)
    requires |input| == KAPPA && output.Length0 == BATCH_SIZE && output.Length1 == KAPPA / 8
    requires Written(input, output, r, BATCH_SIZE)
    ensures Written(input, output, r + 1, 0)
  {
    hide ByteBit;
    var s := r + 1;
    forall i, j {:trigger WrittenAt(input, output, s, 0, i, j)} | 0 <= i < KAPPA && 0 <= j < BATCH_SIZE
      ensures WrittenAt(input, output, s, 0, i, j)
    {
      assert WrittenAt(input, output, r, BATCH_SIZE, i, j);
    }
  }

  /** out is the transpose of the first BATCH_SIZE columns of input. */
  ghost predicate IsTranspose(input: seq<PRGOutput>, out: seq<HashOutput>) {
    && |input| == KAPPA && |out| == BATCH_SIZE
    && forall i, j :: 0 <= i < KAPPA && 0 <= j < BATCH_SIZE ==> RowBit(out[j], i) == RowBit(input[i], j)
  }

  /** cut_and_transpose */
  method CutAndTranspose(input: seq<PRGOutput>) returns (r: Result<seq<HashOutput>, TransposeError>)
    ensures r.Ok? <==> |input| == KAPPA
    ensures r.Ok? ==> IsTranspose(input, r.value)
  {
    hide ByteBit, Written;
    if |input| != KAPPA {
      return Err(WrongDimensions);
    }
    var output := new Byte[BATCH_SIZE, KAPPA / 8]((_, _) => 0);
    NothingWritten(input, output);
    for row_byte := 0 to KAPPA / 8
      invariant Written(input, output, 8 * row_byte, 0)
    {
      for row_bit_within_byte := 0 to 8
        invariant Written(input, output, 8 * row_byte + row_bit_within_byte, 0)
      {
        WriteRow(input, output, row_byte, row_bit_within_byte);
      }
    }
    var rows: seq<HashOutput> := [];
    for j := 0 to BATCH_SIZE
      invariant |rows| == j
      invariant forall k, m :: 0 <= k < j && 0 <= m < KAPPA / 8 ==> rows[k][m] == output[k, m]
    {
      rows := rows + [seq(KAPPA / 8, m requires 0 <= m < KAPPA / 8 reads output => output[j, m])];
    }
    Assembled(input, output, rows);
    return Ok(rows);
  }

  lemma NothingWritten(input: seq<PRGOutput>, output: array2<Byte>)
    requires |input| == KAPPA && output.Length0 == BATCH_SIZE && output.Length1 == KAPPA / 8
    requires forall j, m :: 0 <= j < BATCH_SIZE && 0 <= m < KAPPA / 8 ==> output[j, m] == 0
    ensures Written(input, output, 0, 0)
  {
    hide ByteBit;
    forall n ensures n < 8 ==> !ByteBit(0, n) {
      ZeroBits(n);
    }
  }

  lemma Assembled(input: seq<PRGOutput>, output: array2<Byte>, rows: seq<HashOutput>)
    requires |input| == KAPPA && output.Length0 == BATCH_SIZE && output.Length1 == KAPPA / 8
    requires Written(input, output, KAPPA, 0) && |rows| == BATCH_SIZE
    requires forall k, m :: 0 <= k < BATCH_SIZE && 0 <= m < KAPPA / 8 ==> rows[k][m] == output[k, m]
    ensures IsTranspose(input, rows)
  {
    hide ByteBit;
    forall i, j | 0 <= i < KAPPA && 0 <= j < BATCH_SIZE ensures RowBit(rows[j], i) == RowBit(input[i], j) {
      assert WrittenAt(input, output, KAPPA, 0, i, j);
    }
  }
}
