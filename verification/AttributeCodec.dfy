/** The typed attributes of the registry table: encoding registry records and decoding
    what is read back. */
module AttributeCodec {
  import opened Numerals
  import opened Outcomes

  /** A JSON-like value; Other stands for every Python type that is not supported. Tables
      are compared without regard to the order of their keys. */
  datatype Value =
    | Text(text: string) | Number(n: int) | Flag(b: bool) | Nothing | Table(rows: map<string, Value>) | Other

  /** A typed attribute; Malformed stands for anything that is not exactly one known pair. */
  datatype Attribute =
    | S(s: string) | N(digits: string) | Bool(b: bool) | Null | M(fields: map<string, Attribute>) | Malformed

  // ---------------------------------------------------------------- numerals

  /** What str() writes for an integer. */
  function Written(n: int): string {
    if n < 0 then "-" + Decimal(-n) else Decimal(n)
  }

  /** At most 38 digits without a sign and without a leading zero. */
  predicate IsNumeral(s: string) {
    1 <= |s| <= 38 && (s[0] == '0' ==> |s| == 1) && forall i :: 0 <= i < |s| ==> '0' <= s[i] <= '9'
  }

  lemma {:induction false} ParsedThenWritten(s: string)
    requires IsNumeral(s)
    ensures Decimal(Parsed(s)) == s && (s[0] != '0' ==> Parsed(s) > 0)
  {
    var front, last := s[..|s| - 1], s[|s| - 1] as int - '0' as int;
    assert Digit(last) == s[|s| - 1];
    if |s| == 1 {
      assert front == [] && s == [Digit(last)];
    } else {
      ParsedThenWritten(front);
      assert Parsed(s) == 10 * Parsed(front) + last && Parsed(front) > 0;
      assert Parsed(s) / 10 == Parsed(front) && Parsed(s) % 10 == last;
      assert s == front + [Digit(last)];
    }
  }

  /** An integer survives its text exactly if it is from 0 to below 10 to the 38. */
  lemma NumeralRange(n: int)
    ensures IsNumeral(Written(n)) <==> 0 <= n < Power(38)
    ensures IsNumeral(Written(n)) ==> Parsed(Written(n)) == n
  {
    if n >= 0 {
      DecimalShape(n, 38);
      DecimalShape(n, 1);
      assert Power(1) == 10;
      if n == 0 {
        PowerGrows(38);
      }
    }
  }

  // ---------------------------------------------------------------- encoding and decoding

  function Encode(v: Value): Option<Attribute> {
    match v
    case Text(s) => Some(S(s))
    case Number(n) => Some(N(Written(n)))
    case Flag(b) => Some(Bool(b))
    case Nothing => Some(Null)
    case Table(rows) =>
      if forall k | k in rows :: Encode(rows[k]).Some? then Some(M(map k | k in rows :: Encode(rows[k]).value)) else None
    case Other => None
  }

  function Decode(a: Attribute): Option<Value> {
    match a
    case S(s) => Some(Text(s))
    case N(digits) => if IsNumeral(digits) then Some(Number(Parsed(digits))) else None
    case M(fields) =>
      if forall k | k in fields :: Decode(fields[k]).Some? then Some(Table(map k | k in fields :: Decode(fields[k]).value)) else None
    case _ => None
  }

  /** Text, integers from 0 to below 10 to the 38, and tables of such values. */
  predicate Storable(v: Value) {
    match v
    case Text(_) => true
    case Number(n) => 0 <= n < Power(38)
    case Table(rows) => forall k | k in rows :: Storable(rows[k])
    case _ => false
  }

  predicate Encodable(v: Value) {
    match v
    case Other => false
    case Table(rows) => forall k | k in rows :: Encodable(rows[k])
    case _ => true
  }

  /** What is written is read back as it was exactly if it is storable; every other
      encodable value, one with a flag or a null anywhere inside included, is refused when
      it is read back. */
  lemma {:induction false} ReadBack(v: Value)
    ensures Encode(v).Some? <==> Encodable(v)
    ensures Encode(v).Some? ==> Decode(Encode(v).value) == if Storable(v) then Some(v) else None
    decreases v
  {
    match v {
      case Number(n) => NumeralRange(n);
      case Table(rows) =>
        forall k | k in rows
          ensures Encode(rows[k]).Some? <==> Encodable(rows[k])
          ensures Encode(rows[k]).Some? ==> Decode(Encode(rows[k]).value) == if Storable(rows[k]) then Some(rows[k]) else None
        {
          ReadBack(rows[k]);
        }
        if Encode(v).Some? {
          var fields := Encode(v).value.fields;
          if Storable(v) {
            assert Decode(M(fields)).Some?;
            assert Decode(M(fields)).value.rows == rows;
          } else {
            var k :| k in rows && !Storable(rows[k]);
            assert k in fields && Decode(fields[k]) == None;
          }
        }
      case _ =>
    }
  }

  /** What is accepted on reading has one encoding: it is written back as it was read. */
  lemma {:induction false} WriteBack(a: Attribute)
    ensures Decode(a).Some? ==> Encode(Decode(a).value) == Some(a)
    decreases a
  {
    match a {
      case N(digits) =>
        if IsNumeral(digits) {
          ParsedThenWritten(digits);
        }
      case M(fields) =>
        forall k | k in fields ensures Decode(fields[k]).Some? ==> Encode(Decode(fields[k]).value) == Some(fields[k]) {
          WriteBack(fields[k]);
        }
        if Decode(a).Some? {
          var rows := Decode(a).value.rows;
          assert Encode(Table(rows)).Some?;
          assert Encode(Table(rows)).value.fields == fields;
        }
      case _ =>
    }
  }
}
