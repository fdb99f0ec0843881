/**
 * Cookie batches handed to the `setAll` callback (middleware.ts, lines 59-65)
 * and the two jars they are written into. A jar is a map from cookie name to
 * what was stored under it; `set` replaces an earlier entry of the same name,
 * so when a batch names a cookie twice the later entry wins.
 */
module Cookies {
  import opened Wrappers

  /** One `{ name, value, options }` entry; the options (path, expiry, ...) are opaque. */
  datatype Cookie = Cookie(name: string, value: string, options: map<string, string>)

  /** The position of the last entry of the batch with the given name, if any. */
  function LastNamed(batch: seq<Cookie>, name: string): (r: Option<nat>)
    ensures r.Some? ==> r.value < |batch| && batch[r.value].name == name
    ensures r.Some? ==> forall k :: r.value < k < |batch| ==> batch[k].name != name
    ensures r.None? <==> forall k :: 0 <= k < |batch| ==> batch[k].name != name
  {
    if batch == [] then None
    else if Last(batch).name == name then Some(|batch| - 1)
    else LastNamed(batch[..|batch| - 1], name)
  }

  /** The request jar after `request.cookies.set(name, value)` for each entry in order (line 60). */
  function WriteValues(jar: map<string, string>, batch: seq<Cookie>): map<string, string> {
    if batch == [] then jar
    else WriteValues(jar, batch[..|batch| - 1])[Last(batch).name := Last(batch).value]
  }

  /** A response jar after `response.cookies.set(name, value, options)` for each entry in order (line 64). */
  function WriteCookies(jar: map<string, Cookie>, batch: seq<Cookie>): map<string, Cookie> {
    if batch == [] then jar
    else WriteCookies(jar, batch[..|batch| - 1])[Last(batch).name := Last(batch)]
  }

  /** The request jar after several `setAll` calls, one batch each. */
  function WriteBatches(jar: map<string, string>, batches: seq<seq<Cookie>>): map<string, string> {
    if batches == [] then jar
    else WriteValues(WriteBatches(jar, batches[..|batches| - 1]), Last(batches))
  }

  function Flatten(batches: seq<seq<Cookie>>): seq<Cookie> {
    if batches == [] then [] else Flatten(batches[..|batches| - 1]) + Last(batches)
  }

  /**
   * Last write wins in the request jar: a name the batch mentions holds the
   * value of its last entry; any other name keeps what the jar had.
   */
  lemma {:induction false} WriteValuesLastWins(jar: map<string, string>, batch: seq<Cookie>, name: string)
    ensures name in WriteValues(jar, batch) <==> name in jar || LastNamed(batch, name).Some?
    ensures LastNamed(batch, name).Some? ==>
      WriteValues(jar, batch)[name] == batch[LastNamed(batch, name).value].value
    ensures LastNamed(batch, name).None? && name in jar ==> WriteValues(jar, batch)[name] == jar[name]
  {
    if batch != [] {
      var init := batch[..|batch| - 1];
      WriteValuesLastWins(jar, init, name);
      if Last(batch).name != name {
        assert LastNamed(batch, name) == LastNamed(init, name);
        if LastNamed(init, name).Some? {
          assert batch[LastNamed(init, name).value] == init[LastNamed(init, name).value];
        }
      }
    }
  }

  /**
   * Last write wins in a response jar: a name the batch mentions holds its
   * last entry, value and options; any other name keeps what the jar had.
   */
  lemma {:induction false} WriteCookiesLastWins(jar: map<string, Cookie>, batch: seq<Cookie>, name: string)
    ensures name in WriteCookies(jar, batch) <==> name in jar || LastNamed(batch, name).Some?
    ensures LastNamed(batch, name).Some? ==>
      WriteCookies(jar, batch)[name] == batch[LastNamed(batch, name).value]
    ensures LastNamed(batch, name).None? && name in jar ==> WriteCookies(jar, batch)[name] == jar[name]
  {
    if batch != [] {
      var init := batch[..|batch| - 1];
      WriteCookiesLastWins(jar, init, name);
      if Last(batch).name != name {
        assert LastNamed(batch, name) == LastNamed(init, name);
        if LastNamed(init, name).Some? {
          assert batch[LastNamed(init, name).value] == init[LastNamed(init, name).value];
        }
      }
    }
  }

  /** Writing two batches one after the other is writing their concatenation. */
  lemma {:induction false} WriteValuesAppend(jar: map<string, string>, a: seq<Cookie>, b: seq<Cookie>)
    ensures WriteValues(WriteValues(jar, a), b) == WriteValues(jar, a + b)
    decreases |b|
  {
    if b != [] {
      var init := b[..|b| - 1];
      assert (a + b)[..|a + b| - 1] == a + init;
      assert Last(a + b) == Last(b);
      WriteValuesAppend(jar, a, init);
    } else {
      assert a + b == a;
    }
  }

  /**
   * Every `setAll` call writes into the same request jar, so after several
   * calls the jar is as if all their entries had been written in one batch.
   */
  lemma {:induction false} WriteBatchesFlatten(jar: map<string, string>, batches: seq<seq<Cookie>>)
    ensures WriteBatches(jar, batches) == WriteValues(jar, Flatten(batches))
  {
    if batches != [] {
      var init := batches[..|batches| - 1];
      WriteBatchesFlatten(jar, init);
      WriteValuesAppend(jar, Flatten(init), Last(batches));
    }
  }
}
