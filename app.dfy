/**
 * The state `app.js` keeps in browser storage and the conversion flow that
 * updates it: `readJSON` with its default, the form prefill, and the
 * conversion history (newest first, at most 50 tickets) that `onConvert`
 * extends after each successful conversion.
 */
module App {
  import opened Js
  import opened RateSource
  import opened Conversion

  /**
   * What `JSON.parse(localStorage.getItem(k))` finds under a key: nothing,
   * text that does not parse, the JSON `null`, or a value.
   */
  datatype Stored<T> = Absent | Unparsable | JsonNull | Saved(value: T)

  /** `readJSON(k, def)`: the stored value, or `def` when it is absent, null or unparsable. */
  function ReadJSON<T>(stored: Stored<T>, def: T): (v: T)
    ensures stored.Saved? ==> v == stored.value
    ensures !stored.Saved? ==> v == def
  {
    match stored
    case Saved(x) => x
    case _ => def
  }

  /** The saved prefill document; a field is None when it is missing or `null`. */
  datatype PrefillDoc = PrefillDoc(amount: Option<string>, from: Option<string>, to: Option<string>)

  /** The values of the three form fields. */
  datatype Form = Form(amount: string, from: string, to: string)

  /** The form `prefillForm` shows when nothing usable is saved. */
  const DefaultForm: Form := Form("100", "btc", "usd")

  function OrElse(field: Option<string>, def: string): string
  {
    if field.Some? then field.value else def
  }

  /**
   * `prefillForm()`: each field from the saved document (`??`), else its
   * default; a document that is missing, null or unparsable, or a field
   * that is missing or null, shows the default.
   */
  function Prefill(stored: Stored<PrefillDoc>): (f: Form)
    ensures !stored.Saved? ==> f == DefaultForm
    ensures f.amount == (if stored.Saved? && stored.value.amount.Some? then stored.value.amount.value else "100")
    ensures f.from == (if stored.Saved? && stored.value.from.Some? then stored.value.from.value else "btc")
    ensures f.to == (if stored.Saved? && stored.value.to.Some? then stored.value.to.value else "usd")
  {
    var saved := ReadJSON(stored, PrefillDoc(None, None, None));
    Form(OrElse(saved.amount, DefaultForm.amount), OrElse(saved.from, DefaultForm.from), OrElse(saved.to, DefaultForm.to))
  }

  /** The document `savePrefill()` writes. */
  function SavedPrefill(f: Form): PrefillDoc
  {
    PrefillDoc(Some(f.amount), Some(f.from), Some(f.to))
  }

  /** A prefill that was saved is shown back as it was. */
  lemma PrefillRoundTrip(f: Form)
    ensures Prefill(Saved(SavedPrefill(f))) == f
  {
  }

  /** A conversion ticket as `onConvert` builds it; the id and the date are inputs. */
  datatype Ticket = Ticket(id: string, date: string, from: string, to: string,
                           amount: real, gross: Rate, fee: Rate, net: Rate)

  function MakeTicket(id: string, date: string, from: string, to: string, q: Quote): Ticket
  {
    Ticket(id, date, from, to, q.amount, q.gross, q.fee, q.net)
  }

  /** What a ticket of `onConvert` always satisfies. */
  predicate WellFormedTicket(t: Ticket)
  {
    && t.amount > 0.0
    && t.from != t.to
    && t.fee == Fee(t.gross)
    && t.net == Net(t.gross, t.fee)
  }

  /** `onConvert` up to the ticket, given the snapshot `getSimplePrices("usd")` returned. */
  function ConvertTicket(amount: JsNumber, from: string, to: string, base: Snapshot,
                         id: string, date: string): (r: Result<Ticket, ConvertError>)
    ensures r.Success? ==> WellFormedTicket(r.value) && r.value.gross == Gross(r.value.amount, from, to, base)
    ensures r.Failure? <==> !(IsFinite(amount) && amount.value > 0.0) || from == to
    ensures r.Success? ==> && amount.Finite? && r.value.amount == amount.value && r.value.from == from
                           && r.value.to == to && r.value.id == id && r.value.date == date
    ensures r.Failure? ==> r.error == (if !(IsFinite(amount) && amount.value > 0.0) then InvalidAmount else SameAsset)
  {
    match Convert(amount, from, to, base)
    case Failure(e) => Failure(e)
    case Success(q) => Success(MakeTicket(id, date, from, to, q))
  }

  /** The history keeps at most this many tickets. */
  const HistoryCap: nat := 50

  function Min(a: int, b: int): int
  {
    if a < b then a else b
  }

  /** `hist.unshift(t); hist.slice(0, 50)`: newest first, older tickets in their order, capped. */
  function Push(t: Ticket, hist: seq<Ticket>): (r: seq<Ticket>)
    ensures |r| == Min(|hist| + 1, HistoryCap)
    ensures r[0] == t
    ensures r[1..] == hist[..|r| - 1]
  {
    ([t] + hist)[..Min(|hist| + 1, HistoryCap)]
  }

  /** The history after converting `ts` in order, one push each. */
  function PushAll(ts: seq<Ticket>, hist: seq<Ticket>): seq<Ticket>
  {
    if |ts| == 0 then hist else Push(ts[|ts| - 1], PushAll(ts[..|ts| - 1], hist))
  }

  function Reversed(ts: seq<Ticket>): (r: seq<Ticket>)
    ensures |r| == |ts|
    ensures forall i :: 0 <= i < |ts| ==> r[i] == ts[|ts| - 1 - i]
  {
    if |ts| == 0 then [] else [ts[|ts| - 1]] + Reversed(ts[..|ts| - 1])
  }

  /**
   * After any run of conversions on a capped history, the history is the
   * newest 50 of all tickets, most recent first.
   */
  lemma {:induction false} HistoryIsNewestFirst(ts: seq<Ticket>, hist: seq<Ticket>)
    requires |hist| <= HistoryCap
    ensures PushAll(ts, hist) == (Reversed(ts) + hist)[..Min(|ts| + |hist|, HistoryCap)]
  {
    if |ts| > 0 {
      var init := ts[..|ts| - 1];
      var t := ts[|ts| - 1];
      HistoryIsNewestFirst(init, hist);
      var all := Reversed(init) + hist;
      var m := Min(|init| + |hist|, HistoryCap);
      assert Reversed(ts) == [t] + Reversed(init);
      assert Reversed(ts) + hist == [t] + all;
      assert PushAll(ts, hist) == Push(t, all[..m]);
      assert Push(t, all[..m]) == ([t] + all[..m])[..Min(m + 1, HistoryCap)];
      assert ([t] + all[..m])[..Min(m + 1, HistoryCap)] == ([t] + all)[..Min(|ts| + |hist|, HistoryCap)];
      assert PushAll(ts, hist) == (Reversed(ts) + hist)[..Min(|ts| + |hist|, HistoryCap)];
    } else {
      assert Reversed(ts) == [];
      assert hist[..|hist|] == hist;
    }
  }

  /** The browser storage `app.js` owns: the prefill and the history keys. */
  class AppStore {
    var prefill: Stored<PrefillDoc>
    var history: Stored<seq<Ticket>>

    /** Every history this application writes is capped and holds well-formed tickets. */
    ghost predicate Valid()
      reads this
    {
      history.Saved? ==>
        |history.value| <= HistoryCap && forall t :: t in history.value ==> WellFormedTicket(t)
    }

    /** `readJSON(STORE.history, [])`. */
    function History(): (h: seq<Ticket>)
      reads this
      requires Valid()
      ensures |h| <= HistoryCap
      ensures forall t :: t in h ==> WellFormedTicket(t)
    {
      ReadJSON(history, [])
    }

    /** Empty storage. */
    constructor ()
      ensures prefill == Absent && history == Absent
      ensures Valid() && History() == [] && Prefill(prefill) == DefaultForm
    {
      prefill := Absent;
      history := Absent;
    }

    /**
     * `onConvert`: refuse a bad amount or an identical pair before fetching
     * anything; otherwise fetch the USD snapshot, build the ticket and put it
     * at the head of the capped history. A refusal leaves storage untouched.
     */
    method OnConvert(amount: JsNumber, from: string, to: string,
                     response: Response<Payload>, fallback: Snapshot,
                     id: string, date: string) returns (r: Result<Ticket, ConvertError>)
      requires Valid()
      modifies this
      ensures Valid()
      ensures r == ConvertTicket(amount, from, to, SimplePrices("usd", response, fallback), id, date)
      ensures r.Failure? ==> history == old(history)
      ensures r.Success? ==> history == Saved(Push(r.value, old(History())))
      ensures prefill == old(prefill)
    {
      var checked := Validate(amount, from, to);
      if checked.Failure? {
        return Failure(checked.error);
      }
      var base := FetchSimplePrices("usd", response, fallback);
      var quote := Convert(amount, from, to, base);
      var t := MakeTicket(id, date, from, to, quote.value);
      var hist := ReadJSON(history, []);
      hist := [t] + hist;
      history := Saved(hist[..Min(|hist|, HistoryCap)]);
      r := Success(t);
    }

    /** `savePrefill()`: store the current form. */
    method SavePrefill(f: Form)
      requires Valid()
      modifies this
      ensures Valid()
      ensures prefill == Saved(SavedPrefill(f)) && Prefill(prefill) == f
      ensures history == old(history)
    {
      prefill := Saved(SavedPrefill(f));
      PrefillRoundTrip(f);
    }

    /** `updateHistoryCount()`: the number of stored tickets. */
    method HistoryCount() returns (n: nat)
      requires Valid()
      ensures n == |History()| && n <= HistoryCap
    {
      n := |ReadJSON(history, [])|;
    }

    /** `resetAll()`: forget prefill and history; the form returns to its defaults. */
    method ResetAll() returns (f: Form)
      modifies this
      ensures prefill == Absent && history == Absent
      ensures Valid() && History() == []
      ensures f == DefaultForm
    {
      prefill := Absent;
      history := Absent;
      f := Prefill(prefill);
    }
  }
}
