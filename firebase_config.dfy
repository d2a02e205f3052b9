/** The Firebase configuration record and the gate that decides whether the
    remote Firestore backend or the in-memory fallback buffer is used. */
module FirebaseConfig {
  import opened Js

  datatype Config = Config(
    apiKey: string,
    authDomain: string,
    projectId: string,
    storageBucket: string,
    messagingSenderId: string,
    appId: string)

  /** The configuration as shipped: every credential is still a placeholder. */
  const Shipped := Config(
    "your-api-key-here",
    "your-project.firebaseapp.com",
    "your-project-id",
    "your-project.appspot.com",
    "123456789",
    "your-app-id")

  const Placeholder := "your-"
  const ProjectPlaceholder := "your-project"

  /** The remote store counts as configured when neither the API key nor the
      project id contains "your-" and the auth domain does not contain
      "your-project". Re-evaluated by every store operation. */
  predicate IsFirebaseConfigured(c: Config)
  {
    !Includes(c.apiKey, Placeholder)
    && !Includes(c.projectId, Placeholder)
    && !Includes(c.authDomain, ProjectPlaceholder)
  }

  /** The gate stated by positions: configured exactly when no checked field
      has its placeholder at any position. */
  lemma ConfiguredIffNoPlaceholder(c: Config)
    ensures IsFirebaseConfigured(c) <==>
      && (forall i: nat :: !OccursAt(c.apiKey, Placeholder, i))
      && (forall i: nat :: !OccursAt(c.projectId, Placeholder, i))
      && (forall i: nat :: !OccursAt(c.authDomain, ProjectPlaceholder, i))
  {
  }

  /** With the shipped placeholder values the store runs in fallback mode. */
  lemma ShippedConfigUsesFallback()
    ensures !IsFirebaseConfigured(Shipped)
  {
    assert OccursAt(Shipped.apiKey, Placeholder, 0);
  }

  /** The placeholder check on the project id alone is enough to fall back. */
  lemma PlaceholderProjectIdUsesFallback(c: Config)
    requires c.projectId == "your-project-id"
    ensures !IsFirebaseConfigured(c)
  {
    assert OccursAt(c.projectId, Placeholder, 0);
  }

  /** The auth-domain test looks for "your-project", not "your-": an auth
      domain that contains "your-" does not by itself make the configuration
      count as unconfigured. */
  lemma AuthDomainCheckIsNarrower()
    ensures var c := Config("AIza", "your-", "demo", "", "", "");
      Includes(c.authDomain, Placeholder) && IsFirebaseConfigured(c)
  {
    var c := Config("AIza", "your-", "demo", "", "", "");
    assert OccursAt(c.authDomain, Placeholder, 0);
  }

  /** storageBucket, messagingSenderId and appId never influence the gate. */
  lemma UncheckedFieldsAreIgnored(c: Config, bucket: string, sender: string, app: string)
    ensures IsFirebaseConfigured(c.(storageBucket := bucket, messagingSenderId := sender, appId := app))
        == IsFirebaseConfigured(c)
  {
  }
}
