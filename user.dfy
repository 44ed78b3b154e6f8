/** The user profile: one record holding the user's balance, flushed to storage
    after every change. The balance is an unbounded integer. */
module User {
  import opened Wrappers

  datatype Profile = Profile(id: string, name: string, balance: int, currency: string)

  /** The profile a session starts from before anything is loaded: the
      default user, with nothing on the balance, counted in roubles. */
  function DefaultProfile(): (p: Profile)
    ensures p.id == "default_user" && p.balance == 0 && p.currency == "RUB"
  {
    Profile("default_user", "Пользователь", 0, "RUB")
  }

  class UserStore {
    /** The in-memory profile. */
    var profile: Profile
    /** What the last flush wrote to storage; `None` before the first flush. */
    ghost var persisted: Option<Profile>

    constructor ()
      ensures profile == DefaultProfile()
      ensures persisted == None
    {
      profile := DefaultProfile();
      persisted := None;
    }

    /** Writes the profile to storage. */
    method SaveUser()
      modifies this`persisted
      ensures persisted == Some(profile)
    {
      persisted := Some(profile);
    }

    /** Replaces the profile by the stored one; `stored` is `None` when
        storage holds nothing or what it holds does not parse, and then the
        current profile is kept and nothing is written. */
    method LoadUser(stored: Option<Profile>)
      modifies this
      ensures stored.Some? ==> profile == stored.value && persisted == Some(profile)
      ensures stored.None? ==> profile == old(profile) && persisted == old(persisted)
    {
      if stored.Some? {
        profile := stored.value;
        SaveUser();
      }
    }

    /** Adds `amount` to the balance; nothing else about the profile changes. */
    method AddToBalance(amount: int)
      modifies this
      ensures profile == old(profile).(balance := old(profile).balance + amount)
      ensures persisted == Some(profile)
    {
      profile := profile.(balance := profile.balance + amount);
      SaveUser();
    }

    /** Takes `amount` off the balance when the balance covers it, and reports
        whether it did; otherwise nothing changes. */
    method SubtractFromBalance(amount: int) returns (ok: bool)
      modifies this
      ensures ok <==> old(profile).balance >= amount
      ensures ok ==> profile == old(profile).(balance := old(profile).balance - amount) && persisted == Some(profile)
      ensures !ok ==> profile == old(profile) && persisted == old(persisted)
      ensures old(profile).balance >= 0 ==> profile.balance >= 0
      ensures profile.id == old(profile).id && profile.name == old(profile).name
      ensures profile.currency == old(profile).currency
    {
      if profile.balance >= amount {
        profile := profile.(balance := profile.balance - amount);
        SaveUser();
        ok := true;
      } else {
        ok := false;
      }
    }
  }

  /** From a non-negative balance, adding an amount and then subtracting the
      same amount succeeds and restores the profile. */
  method AddThenSubtract(store: UserStore, amount: int) returns (ok: bool)
    requires store.profile.balance >= 0
    modifies store
    ensures ok
    ensures store.profile == old(store.profile)
  {
    store.AddToBalance(amount);
    ok := store.SubtractFromBalance(amount);
  }
}
