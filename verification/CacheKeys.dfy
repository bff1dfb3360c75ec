/** The three families of cache keys that AuthService builds with template strings. */
module CacheKeys {

  /** Holds of every generated user id: a UUID contains no colon. */
  predicate NoColon(s: string) {
    ':' !in s
  }

  function SessionKey(user: string, token: string): string {
    "session:" + user + ":" + token
  }

  function RefreshKey(user: string, token: string): string {
    "refresh:" + user + ":" + token
  }

  function ResetKey(user: string): string {
    "reset-password:" + user
  }

  /** The first colon of `u:t` comes right after a colon-free u. */
  lemma FirstColon(u: string, t: string, s: string)
    requires NoColon(u) && s == u + ":" + t
    ensures s[|u|] == ':' && forall i :: 0 <= i < |u| ==> s[i] != ':'
    ensures s[..|u|] == u && s[|u| + 1..] == t
  {
  }

  /** Two strings cut at their first colon are equal exactly when both halves are. */
  lemma CutAtColon(u: string, t: string, u': string, t': string)
    requires NoColon(u) && NoColon(u')
    requires u + ":" + t == u' + ":" + t'
    ensures u == u' && t == t'
  {
    FirstColon(u, t, u + ":" + t);
    FirstColon(u', t', u + ":" + t);
  }

  lemma RefreshKeyInjective(u: string, t: string, u': string, t': string)
    requires NoColon(u) && NoColon(u')
    ensures RefreshKey(u, t) == RefreshKey(u', t') <==> u == u' && t == t'
  {
    if RefreshKey(u, t) == RefreshKey(u', t') {
      assert RefreshKey(u, t)[8..] == u + ":" + t;
      assert RefreshKey(u', t')[8..] == u' + ":" + t';
      CutAtColon(u, t, u', t');
    }
  }

  lemma SessionKeyInjective(u: string, t: string, u': string, t': string)
    requires NoColon(u) && NoColon(u')
    ensures SessionKey(u, t) == SessionKey(u', t') <==> u == u' && t == t'
  {
    if SessionKey(u, t) == SessionKey(u', t') {
      assert SessionKey(u, t)[8..] == u + ":" + t;
      assert SessionKey(u', t')[8..] == u' + ":" + t';
      CutAtColon(u, t, u', t');
    }
  }

  lemma ResetKeyInjective(u: string, u': string)
    ensures ResetKey(u) == ResetKey(u') <==> u == u'
  {
    assert ResetKey(u)[15..] == u && ResetKey(u')[15..] == u';
  }

  /** The families never meet, whatever the arguments contain. */
  lemma FamiliesDisjoint(u: string, t: string, u': string, t': string, v: string)
    ensures SessionKey(u, t) != RefreshKey(u', t')
    ensures SessionKey(u, t) != ResetKey(v)
    ensures RefreshKey(u', t') != ResetKey(v)
  {
    assert SessionKey(u, t)[0] == 's' && RefreshKey(u', t')[0] == 'r' && ResetKey(v)[0] == 'r';
    assert RefreshKey(u', t')[2] == 'f' && ResetKey(v)[2] == 's';
  }

  /** Without the no-colon condition a refresh key does not determine its arguments. */
  lemma ColonBreaksInjectivity()
    ensures RefreshKey("a:b", "c") == RefreshKey("a", "b:c")
  {
  }

  /** Keys as the store sees them. */
  lemma KeyTexts()
    ensures SessionKey("u", "t") == "session:u:t" && RefreshKey("u", "t") == "refresh:u:t"
    ensures ResetKey("u") == "reset-password:u"
  {
  }
}
