/**
 * The client router of the single-page application (myapp/resources/js/router.js):
 * the `props` function of the `/` route, which turns the `page` query parameter
 * into the page number handed to the photo list, and the `beforeEnter` guard of
 * the `/login` route.
 */
module Router {
  import Auth
  import opened Common

  /**
   * What `route.query.page` can hold: nothing (the parameter is absent), null
   * (a bare `?page` without `=`), one string, or a list of strings (the
   * parameter repeated, `?page=1&page=2`).
   */
  datatype QueryValue = Missing | NullValue | Text(s: string) | List(items: seq<string>)

  /** Array.prototype.join with the separator ",". */
  function Join(items: seq<string>): string
  {
    if |items| == 0 then ""
    else if |items| == 1 then items[0]
    else items[0] + "," + Join(items[1..])
  }

  /**
   * The string that `RegExp.prototype.test` and the `*` operator see: JavaScript's
   * ToString of the query value (`undefined` becomes "undefined", an array is joined).
   */
  function ToJsString(q: QueryValue): (s: string)
    ensures q.Text? ==> s == q.s
    ensures q.List? && |q.items| == 1 ==> s == q.items[0]
    ensures q.List? && |q.items| >= 2 ==> |q.items[0]| < |s| && s[|q.items[0]|] == ','
    ensures (q.Missing? || q.NullValue?) ==> |s| > 0 && !IsDigit(s[0])
  {
    match q
    case Missing => "undefined"
    case NullValue => "null"
    case Text(s) => s
    case List(items) =>
      if |items| >= 2 then
        assert Join(items) == items[0] + "," + Join(items[1..]);
        Join(items)
      else Join(items)
  }

  predicate IsDigit(c: char)
  {
    '0' <= c <= '9'
  }

  predicate AllDigits(s: string)
  {
    forall i | 0 <= i < |s| :: IsDigit(s[i])
  }

  /** The regular expression `^[1-9][0-9]*$`: a non-empty run of digits that does not start with `0`. */
  predicate MatchesPagePattern(s: string)
    ensures MatchesPagePattern(s) <==> (|s| > 0 && AllDigits(s) && s[0] != '0')
  {
    |s| > 0 && '1' <= s[0] <= '9' && AllDigits(s)
  }

  function DigitValue(c: char): (d: nat)
    requires IsDigit(c)
    ensures d < 10
  {
    c as int - '0' as int
  }

  function DigitChar(d: nat): (c: char)
    requires d < 10
    ensures IsDigit(c) && DigitValue(c) == d
  {
    ('0' as int + d) as char
  }

  /**
   * The number a string of decimal digits denotes (what `page * 1` yields for a
   * string that passed the pattern). A leading digit other than '0' makes it positive.
   */
  function NumberValue(s: string): (v: nat)
    requires AllDigits(s)
    ensures |s| > 0 && s[0] != '0' ==> v >= 1
  {
    if |s| == 0 then 0
    else NumberValue(s[..|s| - 1]) * 10 + DigitValue(s[|s| - 1])
  }

  /** The decimal rendering of a natural number, without leading zeros. */
  function Decimal(n: nat): (s: string)
    ensures |s| > 0 && AllDigits(s)
  {
    if n < 10 then [DigitChar(n)] else Decimal(n / 10) + [DigitChar(n % 10)]
  }

  /**
   * The `props` function of the `/` route: the query value when it matches
   * `^[1-9][0-9]*$`, converted to a number, and 1 otherwise. The page is never below 1.
   */
  function PageProp(q: QueryValue): (page: nat)
    ensures page >= 1
    ensures MatchesPagePattern(ToJsString(q)) ==> page == NumberValue(ToJsString(q))
    ensures !MatchesPagePattern(ToJsString(q)) ==> page == 1
  {
    var s := ToJsString(q);
    if MatchesPagePattern(s) then NumberValue(s) else 1
  }

  /** Splitting the last digit off a digit string undoes appending it. */
  lemma NumberValueSnoc(p: string, c: char)
    requires AllDigits(p) && IsDigit(c)
    ensures AllDigits(p + [c]) && NumberValue(p + [c]) == NumberValue(p) * 10 + DigitValue(c)
  {
  }

  /** The decimal string of every n >= 1 passes the pattern and reads back as n. */
  lemma {:induction false} DecimalRoundTrip(n: nat)
    requires n >= 1
    ensures MatchesPagePattern(Decimal(n))
    ensures NumberValue(Decimal(n)) == n
  {
    if n >= 10 {
      DecimalRoundTrip(n / 10);
      NumberValueSnoc(Decimal(n / 10), DigitChar(n % 10));
    }
  }

  /** Every string that passes the pattern is the decimal string of the number it denotes. */
  lemma {:induction false} PatternIsCanonical(s: string)
    requires MatchesPagePattern(s)
    ensures Decimal(NumberValue(s)) == s
  {
    if |s| > 1 {
      var p := s[..|s| - 1];
      assert MatchesPagePattern(p);
      PatternIsCanonical(p);
      var v := NumberValue(s);
      assert v / 10 == NumberValue(p) && v % 10 == DigitValue(s[|s| - 1]);
      assert s == p + [s[|s| - 1]];
    }
  }

  /** The page the `/` route shows for `?page=` + the decimal string of n is n itself. */
  lemma PagePropRoundTrip(n: nat)
    requires n >= 1
    ensures PageProp(Text(Decimal(n))) == n
  {
    DecimalRoundTrip(n);
  }

  /** Exactly the text "1" and the strings that fail the pattern land on page 1. */
  lemma PageOneExactly(s: string)
    ensures PageProp(Text(s)) == 1 <==> (s == "1" || !MatchesPagePattern(s))
  {
    if MatchesPagePattern(s) && NumberValue(s) == 1 {
      PatternIsCanonical(s);
      assert Decimal(1) == "1";
    }
    if s == "1" {
      assert s[..0] == [];
      assert NumberValue(s) == 1;
    }
  }

  /** A missing or null, empty, zero-led, signed or non-digit query string yields page 1. */
  lemma RejectedQueriesGivePageOne(s: string)
    ensures PageProp(Missing) == 1
    ensures PageProp(NullValue) == 1
    ensures PageProp(Text("")) == 1
    ensures |s| > 0 && (s[0] == '0' || s[0] == '+' || s[0] == '-') ==> PageProp(Text(s)) == 1
    ensures (exists i | 0 <= i < |s| :: !IsDigit(s[i])) ==> PageProp(Text(s)) == 1
  {
  }

  /** A parameter given once in list form reads like the plain string. */
  lemma SingletonListIsText(s: string)
    ensures PageProp(List([s])) == PageProp(Text(s))
  {
  }

  /** A repeated parameter joins to a string with a comma, which the pattern refuses. */
  lemma {:induction false} RepeatedParameterGivesPageOne(items: seq<string>)
    requires |items| >= 2
    ensures PageProp(List(items)) == 1
  {
    var j := Join(items);
    assert j[|items[0]|] == ',';
  }

  /** Where `beforeEnter` of the `/login` route sends the navigation. */
  datatype Navigation = Next | NextTo(path: string)

  /**
   * The `/login` guard: an authenticated user is sent to `/`; anyone else
   * proceeds to the login page.
   */
  function LoginGuard(s: Auth.AuthState): (nav: Navigation)
    ensures nav == NextTo("/") <==> Auth.Check(s)
    ensures nav != NextTo("/") ==> nav == Next
  {
    if Auth.Check(s) then NextTo("/") else Next
  }

  /** A failed action (422 or any other failing status) leaves the guard's decision as it was. */
  lemma LoginGuardUnchangedByFailedActions(s: Auth.AuthState, r: Auth.Response)
    ensures r.status != CREATED ==> LoginGuard(Auth.RegisterTransition(s, r).state) == LoginGuard(s)
    ensures r.status != OK ==> LoginGuard(Auth.LoginTransition(s, r).state) == LoginGuard(s)
    ensures r.status != OK ==> LoginGuard(Auth.LogoutTransition(s, r).state) == LoginGuard(s)
    ensures r.status != OK ==> LoginGuard(Auth.CurrentUserTransition(s, r).state) == LoginGuard(s)
  {
    Auth.GettersUnchangedOnFailure(s, r);
  }

  /** After a successful login with a user in the body, the login page is skipped. */
  lemma LoginGuardAfterLogin(s: Auth.AuthState, r: Auth.Response)
    requires r.status == OK && r.data.Object?
    ensures LoginGuard(Auth.LoginTransition(s, r).state) == NextTo("/")
  {
  }

  /** After a successful logout, the login page is shown again. */
  lemma LoginGuardAfterLogout(s: Auth.AuthState, r: Auth.Response)
    requires r.status == OK
    ensures LoginGuard(Auth.LogoutTransition(s, r).state) == Next
  {
  }
}
