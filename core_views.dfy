/** `newsletter_subscribe`: a POST-only view that stores a normalised email
    address in the subscriber table, once. */
module CoreViews {
  import opened Basics
  import opened Text
  import opened Forms

  /** `(request.POST.get("email") or "").strip().lower()`: empty exactly
      when nothing but whitespace was posted. */
  function NormalizedEmail(form: map<string, string>): (e: string)
    ensures e == "" <==> Blank(Python, Posted(form, "email"))
  {
    TrimEmptyIsBlank(Python, Posted(form, "email"));
    Lower(Trim(Python, Posted(form, "email")))
  }

  /** A string already in the form the view stores. */
  predicate Normalized(e: string)
  {
    Lower(Trim(Python, e)) == e
  }

  datatype Level = Error | Success | Info

  datatype NewsletterReply =
    | MethodNotAllowed                                     // 405 from `require_POST`
    | Back(to: string, level: Level, message: string)      // redirect to the referring page

  /** Where the view sends the browser: the `Referer` header, else `/`. */
  function BackTo(referer: Option<string>): string
  {
    if referer.Some? then referer.value else "/"
  }

  /** `newsletter_subscribe`.  `subscribers` is the table's email column;
      `storageFails` is a database error during `get_or_create`, which the
      view reports and which stores nothing. */
  function NewsletterSubscribe(isPost: bool, form: map<string, string>, referer: Option<string>,
                               subscribers: seq<string>, storageFails: bool): (r: (NewsletterReply, seq<string>))
    ensures !isPost ==> r == (MethodNotAllowed, subscribers)
    ensures isPost ==> r.0.Back? && r.0.to == BackTo(referer)
    ensures isPost && NormalizedEmail(form) == "" ==>
              r == (Back(BackTo(referer), Error, "Please enter a valid email"), subscribers)
    ensures isPost && NormalizedEmail(form) != "" && storageFails ==>
              r == (Back(BackTo(referer), Error, "Unable to subscribe right now. Please try later."), subscribers)
    ensures isPost && NormalizedEmail(form) != "" && !storageFails ==>
              if NormalizedEmail(form) in subscribers
              then r == (Back(BackTo(referer), Info, "You're already subscribed."), subscribers)
              else r == (Back(BackTo(referer), Success, "Thanks for subscribing!"), subscribers + [NormalizedEmail(form)])
  {
    if !isPost then (MethodNotAllowed, subscribers)
    else
      var email := NormalizedEmail(form);
      var back := BackTo(referer);
      if email == "" then (Back(back, Error, "Please enter a valid email"), subscribers)
      else if storageFails then (Back(back, Error, "Unable to subscribe right now. Please try later."), subscribers)
      else if email in subscribers then (Back(back, Info, "You're already subscribed."), subscribers)
      else (Back(back, Success, "Thanks for subscribing!"), subscribers + [email])
  }

  /** Lower-casing changes only the letters A-Z, none of which is whitespace,
      and lower-casing twice is lower-casing once. */
  lemma LowerCharSpace(c: char)
    ensures IsSpace(Python, LowerChar(c)) <==> IsSpace(Python, c)
    ensures LowerChar(LowerChar(c)) == LowerChar(c)
  {
    if 'A' <= c <= 'Z' {
      assert !IsSpace(Python, c) && !IsSpace(Python, LowerChar(c));
    }
  }

  /** A string without whitespace at either end is its own `strip()`. */
  lemma TrimOfTrimmed(s: string)
    requires s != [] ==> !IsSpace(Python, s[0]) && !IsSpace(Python, s[|s| - 1])
    ensures Trim(Python, s) == s
  {
    if s != [] {
      assert TrimLeft(Python, s) == s;
    }
  }

  /** Lower-casing an already lower-cased string changes nothing. */
  lemma LowerOfLower(t: string)
    ensures Lower(Lower(t)) == Lower(t)
  {
    var e := Lower(t);
    forall i | 0 <= i < |e| ensures Lower(e)[i] == e[i]
    {
      LowerCharSpace(t[i]);
    }
  }

  /** The stored address is normalised: normalising it again changes
      nothing. */
  lemma NormalizedEmailIsNormalized(form: map<string, string>)
    ensures Normalized(NormalizedEmail(form))
  {
    var t := Trim(Python, Posted(form, "email"));
    var e := Lower(t);
    if e != [] {
      LowerCharSpace(t[0]);
      LowerCharSpace(t[|t| - 1]);
      assert !IsSpace(Python, e[0]) && !IsSpace(Python, e[|e| - 1]);
    }
    TrimOfTrimmed(e);
    LowerOfLower(t);
  }

  /** Every stored address is non-empty and normalised, and none is stored
      twice. */
  predicate TableValid(subscribers: seq<string>)
  {
    Distinct(subscribers) && forall i :: 0 <= i < |subscribers| ==> subscribers[i] != "" && Normalized(subscribers[i])
  }

  lemma SubscribeKeepsTableValid(isPost: bool, form: map<string, string>, referer: Option<string>,
                                 subscribers: seq<string>, storageFails: bool)
    requires TableValid(subscribers)
    ensures TableValid(NewsletterSubscribe(isPost, form, referer, subscribers, storageFails).1)
  {
    var email := NormalizedEmail(form);
    if isPost && email != "" && !storageFails && email !in subscribers {
      NormalizedEmailIsNormalized(form);
      AppendKeepsTableValid(subscribers, email);
    }
  }

  lemma AppendKeepsTableValid(subscribers: seq<string>, email: string)
    requires TableValid(subscribers)
    requires email != "" && Normalized(email) && email !in subscribers
    ensures TableValid(subscribers + [email])
  {
    DistinctConcat(subscribers, [email]);
    var after := subscribers + [email];
    forall i | 0 <= i < |after| ensures after[i] != "" && Normalized(after[i])
    {
      if i < |subscribers| {
        assert after[i] == subscribers[i];
      }
    }
  }

  /** Subscribing twice, with any spelling that normalises to the same
      address, stores it once and the second time reports it as already
      subscribed. */
  lemma SubscribeTwice(form: map<string, string>, form2: map<string, string>, referer: Option<string>, subscribers: seq<string>)
    requires NormalizedEmail(form) != "" && NormalizedEmail(form2) == NormalizedEmail(form)
    ensures var once := NewsletterSubscribe(true, form, referer, subscribers, false).1;
            NewsletterSubscribe(true, form2, referer, once, false) == (Back(BackTo(referer), Info, "You're already subscribed."), once)
  {
  }
}
