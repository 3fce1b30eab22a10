/** The text of one index record: key, data offset, data length. */
module DbRecord {
  import opened Common
  import opened CStrings

  /** err_dump and err_quit end the process: no value comes back. */
  datatype Outcome<+T> = Value(value: T) | Aborted {
    predicate IsFailure() { Aborted? }
    function PropagateFailure<U>(): Outcome<U> requires Aborted? { Aborted }
    function Extract(): T requires Value? { value }
  }

  const IDXLEN_MIN := 6
  const IDXLEN_MAX := 1024
  const DATLEN_MIN := 2
  const DATLEN_MAX := 1024

  /** What an index record says besides its chain pointer. */
  datatype Rec = Rec(key: seq<byte>, datoff: nat, datlen: nat)

  predicate IsKey(key: seq<byte>) {
    NUL !in key && SEP !in key
  }

  function Numbers(datoff: nat, datlen: nat): seq<byte> {
    Decimal(datoff) + [SEP] + Decimal(datlen)
  }

  function Body(r: Rec): seq<byte> {
    r.key + [SEP] + Numbers(r.datoff, r.datlen) + [NEWLINE]
  }

  predicate GoodRec(r: Rec) {
    && IsKey(r.key)
    && IDXLEN_MIN <= |Body(r)| <= IDXLEN_MAX
    && DATLEN_MIN <= r.datlen <= DATLEN_MAX
  }

  lemma NumberFields(datoff: nat, datlen: nat)
    ensures var u := Numbers(datoff, datlen);
            var j := IndexOf(u, SEP);
            && j < |u| && Atol(u[..j]) == datoff
            && SEP !in u[j + 1..] && Atol(u[j + 1..]) == datlen
  {
    var a, b := Decimal(datoff), Decimal(datlen);
    var u := Numbers(datoff, datlen);
    DecimalDigits(datoff);
    DecimalDigits(datlen);
    IndexOfAppend(a, SEP, b);
    assert u[..|a|] == a;
    assert u[|a| + 1..] == b;
    AtolDecimal(datoff);
    AtolDecimal(datlen);
  }

  /** How _db_readidx takes apart the bytes of a record body. */
  function ParseBody(buf: seq<byte>): Outcome<Rec> {
    if buf == [] || buf[|buf| - 1] != NEWLINE then Aborted
    else
      var line := buf[..|buf| - 1];
      var text := line[..IndexOf(line, NUL)];
      var i := IndexOf(text, SEP);
      if i == |text| then Aborted else ParseNumbers(text[..i], text[i + 1..])
  }

  function ParseNumbers(key: seq<byte>, u: seq<byte>): Outcome<Rec> {
    var j := IndexOf(u, SEP);
    if j == |u| then Aborted
    else if IndexOf(u[j + 1..], SEP) < |u[j + 1..]| then Aborted
    else
      var off, len := Atol(u[..j]), Atol(u[j + 1..]);
      if off < 0 || len <= 0 || len > DATLEN_MAX then Aborted else Value(Rec(key, off, len))
  }

  lemma ParseLine(key: seq<byte>, u: seq<byte>)
    requires IsKey(key) && NUL !in u
    ensures ParseBody(key + [SEP] + u + [NEWLINE]) == ParseNumbers(key, u)
  {
    var buf := key + [SEP] + u + [NEWLINE];
    var line := buf[..|buf| - 1];
    assert line == key + [SEP] + u;
    assert line[..IndexOf(line, NUL)] == line;
    IndexOfAppend(key, SEP, u);
    assert line[..|key|] == key && line[|key| + 1..] == u;
  }

  lemma NumbersLackNul(datoff: nat, datlen: nat)
    ensures NUL !in Numbers(datoff, datlen)
  {
    DecimalDigits(datoff);
    DecimalDigits(datlen);
  }

  /** Reading back a record body is the identity. */
  lemma ParseBodyInverts(r: Rec)
    requires GoodRec(r)
    ensures ParseBody(Body(r)) == Value(r)
  {
    NumbersLackNul(r.datoff, r.datlen);
    ParseLine(r.key, Numbers(r.datoff, r.datlen));
    NumberFields(r.datoff, r.datlen);
  }

  /** A key with a colon leaves one separator too many, and the record cannot be read. */
  lemma ColonAborts(r: Rec)
    requires 58 in r.key && 0 !in r.key
    ensures ParseBody(Body(r)) == Aborted
  {
    var i := IndexOf(r.key, SEP);
    var key, rest, nums := r.key[..i], r.key[i + 1..], Numbers(r.datoff, r.datlen);
    assert r.key == key + [SEP] + rest;
    var u := rest + [SEP] + nums;
    assert Body(r) == key + [SEP] + u + [NEWLINE];
    NumbersLackNul(r.datoff, r.datlen);
    ParseLine(key, u);
    var a, b := Decimal(r.datoff), Decimal(r.datlen);
    var j := IndexOf(u, SEP);
    assert u[|rest| + 1 + |a|] == SEP;
    if j == |rest| {
      assert u[j + 1..] == nums && nums[|a|] == SEP;
    } else {
      assert u[|rest|] == SEP;
      assert SEP in u[j + 1..] by { assert u[j + 1..][|rest| - j - 1] == SEP; }
    }
  }

  /** A record reads back as what was stored exactly when its key has no colon and no NUL. */
  lemma ReadsBackIff(r: Rec)
    requires DATLEN_MIN <= r.datlen <= DATLEN_MAX
    ensures ParseBody(Body(r)) == Value(r) <==> 58 !in r.key && 0 !in r.key
    ensures Body(r)[|Body(r)| - 1] == 10
  {
    if 0 in r.key {
      var line := Body(r)[..|Body(r)| - 1];
      assert NUL !in line[..IndexOf(line, NUL)];
    } else if 58 in r.key {
      ColonAborts(r);
    } else {
      NumbersLackNul(r.datoff, r.datlen);
      ParseLine(r.key, Numbers(r.datoff, r.datlen));
      NumberFields(r.datoff, r.datlen);
    }
  }
}
