/**
 * The newsletter sign-up form: an address check, a subscriber list that never holds an address
 * twice, and the subscribed state that is later reset.
 */
module Newsletter {
  import opened Seqs

  /** An address is accepted when it is not empty and contains '@'. */
  predicate LooksLikeEmail(email: string): (ok: bool)
    ensures ok <==> exists i :: 0 <= i < |email| && email[i] == '@'
  {
    email != "" && '@' in email
  }

  /** The stored list after subscribing `email`: unchanged when already present, otherwise extended by it. */
  function AddSubscriber(subscribers: seq<string>, email: string): (r: seq<string>)
    ensures email in r
    ensures forall e :: e in r <==> e in subscribers || e == email
    ensures email in subscribers ==> r == subscribers
    ensures email !in subscribers ==> r == subscribers + [email]
  {
    if email in subscribers then subscribers else subscribers + [email]
  }

  /** Adding a subscriber keeps a duplicate-free list duplicate-free. */
  lemma AddSubscriberKeepsNoDup(subscribers: seq<string>, email: string)
    requires NoDup(subscribers)
    ensures NoDup(AddSubscriber(subscribers, email))
  {
    if email !in subscribers {
      var r := subscribers + [email];
      forall i, j | 0 <= i < j < |r|
        ensures r[i] != r[j]
      {
        if j == |subscribers| {
          assert r[i] == subscribers[i];
        }
      }
    }
  }

  /** Subscribing the same address twice stores it once. */
  lemma AddSubscriberTwice(subscribers: seq<string>, email: string)
    ensures AddSubscriber(AddSubscriber(subscribers, email), email) == AddSubscriber(subscribers, email)
  {
  }

  class SignupForm {
    var email: string
    var isLoading: bool
    var isSubscribed: bool
    /** The stored subscriber list. */
    var subscribers: seq<string>

    constructor(stored: seq<string>)
      ensures email == "" && !isLoading && !isSubscribed && subscribers == stored
    {
      email := "";
      isLoading := false;
      isSubscribed := false;
      subscribers := stored;
    }

    /** The address field and the submit button are disabled while loading or once subscribed. */
    predicate Disabled()
      reads this
    {
      isLoading || isSubscribed
    }

    /** Typing in the address field; a disabled field takes no input. */
    method Type(value: string)
      modifies this
      ensures email == if old(Disabled()) then old(email) else value
      ensures isLoading == old(isLoading) && isSubscribed == old(isSubscribed) && subscribers == old(subscribers)
    {
      if !Disabled() {
        email := value;
      }
    }

    /**
     * `handleSubscribe`: an address that is empty or has no '@' is rejected and nothing changes;
     * otherwise it is added to the stored list unless already there, and the form ends not
     * loading and subscribed.
     */
    method Subscribe() returns (accepted: bool)
      modifies this
      ensures accepted <==> LooksLikeEmail(old(email))
      ensures !accepted ==> email == old(email) && isLoading == old(isLoading)
      ensures !accepted ==> isSubscribed == old(isSubscribed) && subscribers == old(subscribers)
      ensures accepted ==> subscribers == AddSubscriber(old(subscribers), old(email))
      ensures accepted ==> email == old(email) && !isLoading && isSubscribed && Disabled()
      ensures NoDup(old(subscribers)) ==> NoDup(subscribers)
    {
      if email == "" || '@' !in email {
        return false;
      }
      isLoading := true;
      if email !in subscribers {
        subscribers := subscribers + [email];
      }
      if NoDup(old(subscribers)) {
        AddSubscriberKeepsNoDup(old(subscribers), email);
      }
      isLoading := false;
      isSubscribed := true;
      accepted := true;
    }

    /** The timed reset after subscribing: the form is cleared and usable again unless still loading. */
    method Reset()
      modifies this
      ensures !isSubscribed && email == ""
      ensures isLoading == old(isLoading) && subscribers == old(subscribers)
      ensures !isLoading ==> !Disabled()
    {
      isSubscribed := false;
      email := "";
    }
  }
}
