/**
  The polymorphic identity provider of a cluster's auth profile: a base
  variant that carries only its kind discriminator, and the Azure Active
  Directory variant with client credentials, tenant and admin group.
 */
module IdentityProviders {
  import opened Wrappers

  /** Discriminator value of the AAD variant (`kind = "AADIdentityProvider"` in configuration). */
  const AadKind: string := "AADIdentityProvider"

  /** Discriminator value of the base variant. */
  const BaseKind: string := "OpenShiftManagedClusterBaseIdentityProvider"

  datatype IdentityProvider =
    | BaseIdentityProvider(kind: string)
    | AadIdentityProvider(
        clientId: Option<string>,
        secret: Option<string>,
        tenantId: Option<string>,
        customerAdminGroupId: Option<string>,
        kind: string)

  /** A provider as listed in an auth profile, under a display name. */
  datatype NamedIdentityProvider = NamedIdentityProvider(name: Option<string>, provider: IdentityProvider)
}
