/**
 The shared key-value store of the direct binding, reduced to the commands the
 workers use: SET with NX, GET, RPUSH, INCR. A value is a string or a list of
 stored test results; a counter is a string holding decimal text, as in Redis.
 Each command is one atomic step on the map from keys to values.
 */
module Redis {
  import opened Wrappers
  import opened TestResults

  datatype Value = Str(text: string) | List(items: seq<TestResult>)

  type Db = map<string, Value>

  predicate IsDigit(c: char)
  {
    '0' <= c <= '9'
  }

  function DigitChar(d: nat): char
    requires d < 10
  {
    ('0' as int + d) as char
  }

  predicate AllDigits(s: string)
  {
    forall i :: 0 <= i < |s| ==> IsDigit(s[i])
  }

  /** The value of a string of decimal digits. */
  function DigitsValue(s: string): nat
    requires AllDigits(s)
  {
    if s == [] then 0
    else DigitsValue(s[..|s| - 1]) * 10 + (s[|s| - 1] as int - '0' as int)
  }

  /** Decimal text of a natural number. */
  function NatText(n: nat): (s: string)
    ensures |s| >= 1 && AllDigits(s)
    ensures s[0] == '0' <==> n == 0
    ensures n == 0 ==> s == "0"
  {
    if n < 10 then [DigitChar(n)] else NatText(n / 10) + [DigitChar(n % 10)]
  }

  /** Decimal text of an integer, with a leading '-' when negative. */
  function IntText(n: int): string
  {
    if n < 0 then "-" + NatText(-n) else NatText(n)
  }

  /** Digits without a leading zero: the text of a positive number. */
  predicate PositiveText(s: string)
  {
    |s| >= 1 && AllDigits(s) && s[0] != '0'
  }

  /**
   How Redis reads a string as an integer (INCR): "0", or an optional '-'
   followed by digits without a leading zero. The 64-bit range is not modelled.
   */
  function ParseInt(s: string): Option<int>
  {
    if s == "0" then Some(0)
    else if |s| >= 2 && s[0] == '-' && PositiveText(s[1..]) then Some(0 - DigitsValue(s[1..]) as int)
    else if PositiveText(s) then Some(DigitsValue(s))
    else None
  }

  lemma {:induction false} NatTextValue(n: nat)
    ensures DigitsValue(NatText(n)) == n
  {
    if n >= 10 {
      NatTextValue(n / 10);
      var s := NatText(n);
      assert s[..|s| - 1] == NatText(n / 10);
    }
  }

  lemma {:induction false} PositiveValue(s: string)
    requires PositiveText(s)
    ensures DigitsValue(s) >= 1
  {
    if |s| > 1 {
      PositiveValue(s[..|s| - 1]);
    }
  }

  lemma {:induction false} TextOfValue(s: string)
    requires PositiveText(s)
    ensures NatText(DigitsValue(s)) == s
  {
    var last := s[|s| - 1] as int - '0' as int;
    if |s| > 1 {
      var p := s[..|s| - 1];
      TextOfValue(p);
      PositiveValue(p);
      var v := DigitsValue(s);
      assert v == DigitsValue(p) * 10 + last;
      assert v / 10 == DigitsValue(p) && v % 10 == last;
      assert s == p + [s[|s| - 1]];
    } else {
      assert s == [s[0]];
    }
  }

  /** Reading back the text of an integer gives the integer. */
  lemma ParseIntText(n: int)
    ensures ParseInt(IntText(n)) == Some(n)
  {
    if n < 0 {
      var t := NatText(-n);
      NatTextValue(-n);
      assert ("-" + t)[1..] == t;
    } else if n > 0 {
      NatTextValue(n);
    }
  }

  /** Every text Redis accepts as an integer is the canonical text of that integer. */
  lemma IntTextOfParse(s: string)
    requires ParseInt(s).Some?
    ensures IntText(ParseInt(s).value) == s
  {
    if s == "0" {
    } else if |s| >= 2 && s[0] == '-' && PositiveText(s[1..]) {
      PositiveValue(s[1..]);
      TextOfValue(s[1..]);
      assert s == "-" + s[1..];
    } else {
      PositiveValue(s);
      TextOfValue(s);
    }
  }

  /** LRANGE key 0 -1: the items of a list, none for a missing key. */
  function ItemsAt(db: Db, key: string): seq<TestResult>
  {
    if key in db && db[key].List? then db[key].items else []
  }

  /** The integer INCR would start from: 0 for a missing key, none for a value that is not an integer. */
  function IntAt(db: Db, key: string): Option<int>
  {
    if key !in db then Some(0)
    else if db[key].Str? then ParseInt(db[key].text)
    else None
  }

  /** GET key (a list value is returned as is; the caller compares it with a string). */
  function GetStep(db: Db, key: string): Option<Value>
  {
    if key in db then Some(db[key]) else None
  }

  /** SET key value NX */
  function SetIfAbsentStep(db: Db, key: string, value: string): (db': Db)
    ensures key in db' && (key in db ==> db' == db)
    ensures key !in db ==> db' == db[key := Str(value)]
  {
    if key in db then db else db[key := Str(value)]
  }

  /** RPUSH key item: a command on a string value is refused and changes nothing. */
  function RPushStep(db: Db, key: string, item: TestResult): (db': Db)
    ensures key !in db || db[key].List? ==> db' == db[key := List(ItemsAt(db, key) + [item])]
    ensures key in db && db[key].Str? ==> db' == db
  {
    if key !in db then assert ItemsAt(db, key) + [item] == [item]; db[key := List([item])]
    else match db[key]
      case List(items) => db[key := List(items + [item])]
      case Str(_) => db
  }

  /** INCR key: a command on a value that is not an integer is refused and changes nothing. */
  function IncrStep(db: Db, key: string): (db': Db)
    ensures IntAt(db, key).Some? ==> db' == db[key := Str(IntText(IntAt(db, key).value + 1))]
    ensures IntAt(db, key).Some? ==> IntAt(db', key) == Some(IntAt(db, key).value + 1)
    ensures IntAt(db, key).None? ==> db' == db
  {
    match IntAt(db, key)
    case Some(n) => ParseIntText(n + 1); db[key := Str(IntText(n + 1))]
    case None => db
  }

  /** The store, shared by every worker. */
  class RedisStore {
    var db: Db

    constructor ()
      ensures db == map[]
    {
      db := map[];
    }

    /** MULTI; SET key value NX; GET key; EXEC — one atomic transaction. */
    method SetNxGet(key: string, value: string) returns (got: Option<Value>)
      modifies this
      ensures db == SetIfAbsentStep(old(db), key, value)
      ensures got == GetStep(db, key)
    {
      if key !in db {
        db := db[key := Str(value)];
      }
      got := Some(db[key]);
    }

    method RPush(key: string, item: TestResult)
      modifies this
      ensures db == RPushStep(old(db), key, item)
    {
      if key !in db {
        db := db[key := List([item])];
      } else if db[key].List? {
        db := db[key := List(db[key].items + [item])];
      }
    }

    method Incr(key: string)
      modifies this
      ensures db == IncrStep(old(db), key)
    {
      var current := IntAt(db, key);
      if current.Some? {
        db := db[key := Str(IntText(current.value + 1))];
      }
    }
  }
}
