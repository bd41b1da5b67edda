/** The parsed form of an inbound bus payload, as the JSON library hands it to the
    inbound-message handler: either nothing (the text did not parse) or an object whose
    fields are looked up by name and tested for their JSON type. */
module Json {

  datatype Option<+T> = None | Some(value: T)

  /** A field value, reduced to what the handler distinguishes: a boolean, a string,
      or anything else (number, null, array, nested object). */
  datatype JVal = JBool(b: bool) | JStr(s: string) | JOther

  /** A parsed payload. A well-formed payload that is not an object has no field the
      handler can find, so it is the empty map. */
  type JObject = map<string, JVal>

  /** `jobject_get_exists` followed by `jis_boolean` and `jboolean_get`. */
  function GetBool(obj: JObject, key: string): (r: Option<bool>)
    ensures r.Some? <==> key in obj && obj[key].JBool?
    ensures r.Some? ==> obj[key] == JBool(r.value)
  {
    if key in obj && obj[key].JBool? then Some(obj[key].b) else None
  }

  /** The index of the first NUL in a character buffer, or its length when there is none. */
  function NulIndex(s: string): (n: nat)
    ensures n <= |s|
  {
    if |s| == 0 || s[0] == '\0' then 0 else 1 + NulIndex(s[1..])
  }

  /** The C string a character buffer holds: everything before the first NUL, which is what
      `strlen`, `g_strcmp0`, `g_strdup` and `%s` see. */
  function CString(s: string): string
  {
    s[..NulIndex(s)]
  }

  /** The C string is the longest NUL-free prefix of the buffer. */
  lemma {:induction false} CStringIsPrefixBeforeNul(s: string)
    ensures '\0' !in CString(s)
    ensures CString(s) <= s
    ensures |CString(s)| < |s| ==> s[|CString(s)|] == '\0'
  {
    NulIndexIsFirstNul(s);
  }

  lemma {:induction false} NulIndexIsFirstNul(s: string)
    ensures forall i :: 0 <= i < NulIndex(s) ==> s[i] != '\0'
    ensures NulIndex(s) < |s| ==> s[NulIndex(s)] == '\0'
  {
    if |s| > 0 && s[0] != '\0' {
      NulIndexIsFirstNul(s[1..]);
      assert forall i :: 1 <= i < NulIndex(s) ==> s[i] == s[1..][i - 1];
    }
  }

  /** A buffer without NUL is its own C string. */
  lemma {:induction false} CStringOfNulFree(s: string)
    requires '\0' !in s
    ensures CString(s) == s
  {
    NulFreeReachesEnd(s);
  }

  lemma {:induction false} NulFreeReachesEnd(s: string)
    requires '\0' !in s
    ensures NulIndex(s) == |s|
  {
    if |s| > 0 {
      assert s[0] in s;
      assert forall c :: c in s[1..] ==> c in s;
      NulFreeReachesEnd(s[1..]);
    }
  }

  /** `jobject_get_exists` followed by `jis_string` and `jstring_get`, the string then read
      through its `m_str` pointer as a C string. */
  function GetString(obj: JObject, key: string): (r: Option<string>)
    ensures r.Some? <==> key in obj && obj[key].JStr?
    ensures r.Some? ==> r.value == CString(obj[key].s)
  {
    if key in obj && obj[key].JStr? then Some(CString(obj[key].s)) else None
  }
}
