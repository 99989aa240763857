/**
 * The SSH-secret dialog of a virtual machine: the initial "apply key to project"
 * flag, and what a submission does — whether the per-namespace authorized-keys
 * map is updated and which single VM action follows.
 *
 * The remote calls (detach, update the VM, create a secret) are returned as an
 * action value; the caller performs them. A secret name or public key that may be
 * `undefined` is an `Option<string>`, so `undefined` and `""` stay apart where the
 * source compares them with `===`.
 */
module VMSSHSecretModal {
  import opened Wrappers

  /** `SecretSelectionOption`: no secret (`none`), an existing secret, or a new one built from a public key. */
  datatype SecretSelectionOption = NoSecret | UseExisting | AddNew

  /** The dialog's values. */
  datatype SSHSecretDetails = SSHSecretDetails(
    applyKeyToProject: bool,
    secretOption: SecretSelectionOption,
    sshPubKey: Option<string>,
    sshSecretName: Option<string>)

  /**
   * `namespace -> secret name` of the project-wide authorized keys. An entry can
   * hold `undefined`: the spread copy stores whatever name was submitted.
   */
  type AuthorizedKeys = map<string, Option<string>>

  /** `isEmpty` on a possibly unset string. */
  predicate IsEmpty(s: Option<string>)
  {
    s == None || s == Some("")
  }

  /** `authorizedSSHKeys?.[namespace]`: `undefined` when the map or the entry is missing. */
  function AuthorizedKeyFor(keys: Option<AuthorizedKeys>, namespace: string): (r: Option<string>)
    ensures keys.Some? && namespace in keys.value ==> r == keys.value[namespace]
    ensures keys.None? || namespace !in keys.value ==> r == None
  {
    if keys.Some? && namespace in keys.value then keys.value[namespace] else None
  }

  /** The initial `applyKeyToProject`: the VM has a secret and it is its namespace's authorized key. */
  predicate InitialApplyKeyToProject(secretName: Option<string>, keys: Option<AuthorizedKeys>, namespace: string)
    ensures InitialApplyKeyToProject(secretName, keys, namespace) <==>
      secretName.Some? && secretName.value != ""
      && keys.Some? && namespace in keys.value && keys.value[namespace] == secretName
  {
    !IsEmpty(secretName) && AuthorizedKeyFor(keys, namespace) == secretName
  }

  /** The one VM action a submission may start. */
  datatype VmAction =
    | NoAction
    | DetachSecret
    | AttachSecret(secretName: string)
      /** create the secret in `namespace`, and only once it exists attach it to the VM */
    | CreateSecretThenAttach(sshPubKey: string, secretName: string, namespace: string)

  /** What a submission does: the new authorized-keys map if it is updated, and the VM action. */
  datatype SubmitOutcome = SubmitOutcome(newAuthorizedKeys: Option<AuthorizedKeys>, action: VmAction)

  /** `{ ...authorizedSSHKeys, [namespace]: secretName }`; spreading an unset map adds nothing. */
  function WithAuthorizedKey(keys: Option<AuthorizedKeys>, namespace: string, secretName: Option<string>)
    : (r: AuthorizedKeys)
    ensures r.Keys == (if keys.Some? then keys.value.Keys else {}) + {namespace}
    ensures r[namespace] == secretName
    ensures forall ns :: ns in r && ns != namespace ==> keys.Some? && r[ns] == keys.value[ns]
  {
    (if keys.Some? then keys.value else map[])[namespace := secretName]
  }

  /**
   * The VM action chosen after the key-map step. The three guards are tried in
   * order; they exclude each other, since each asks for a different option.
   */
  function ChooseAction(details: SSHSecretDetails, initial: SSHSecretDetails, namespace: string): (a: VmAction)
    ensures a == DetachSecret <==> details.secretOption == NoSecret && initial.secretOption != NoSecret
    ensures a.AttachSecret? <==>
      details.secretOption == UseExisting && initial.sshSecretName != details.sshSecretName
      && !IsEmpty(details.sshSecretName)
    ensures a.AttachSecret? ==> Some(a.secretName) == details.sshSecretName
    ensures a.CreateSecretThenAttach? <==>
      details.secretOption == AddNew && !IsEmpty(details.sshPubKey) && !IsEmpty(details.sshSecretName)
    ensures a.CreateSecretThenAttach? ==>
      Some(a.sshPubKey) == details.sshPubKey && Some(a.secretName) == details.sshSecretName
      && a.namespace == namespace
  {
    if details.secretOption == NoSecret && initial.secretOption != NoSecret then
      DetachSecret
    else if details.secretOption == UseExisting && initial.sshSecretName != details.sshSecretName
            && !IsEmpty(details.sshSecretName) then
      AttachSecret(details.sshSecretName.value)
    else if details.secretOption == AddNew && !IsEmpty(details.sshPubKey) && !IsEmpty(details.sshSecretName) then
      CreateSecretThenAttach(details.sshPubKey.value, details.sshSecretName.value, namespace)
    else
      NoAction
  }

  /**
   * `onSubmit`. Unchanged details do nothing. Otherwise the key map is updated when
   * the key is to be applied to the project and the namespace's entry is not already
   * the submitted name, and then at most one VM action follows.
   */
  function OnSubmit(details: SSHSecretDetails, initial: SSHSecretDetails,
                    keys: Option<AuthorizedKeys>, namespace: string): (r: SubmitOutcome)
    ensures details == initial ==> r == SubmitOutcome(None, NoAction)
    ensures r.newAuthorizedKeys.Some? <==>
      details != initial && details.applyKeyToProject
      && AuthorizedKeyFor(keys, namespace) != details.sshSecretName
    ensures r.newAuthorizedKeys.Some? ==>
      r.newAuthorizedKeys.value == WithAuthorizedKey(keys, namespace, details.sshSecretName)
    ensures r.action == DetachSecret <==>
      details != initial && details.secretOption == NoSecret && initial.secretOption != NoSecret
    ensures r.action.AttachSecret? <==>
      details != initial && details.secretOption == UseExisting
      && initial.sshSecretName != details.sshSecretName && !IsEmpty(details.sshSecretName)
    ensures r.action.AttachSecret? ==> Some(r.action.secretName) == details.sshSecretName
    ensures r.action.CreateSecretThenAttach? <==>
      details != initial && details.secretOption == AddNew
      && !IsEmpty(details.sshPubKey) && !IsEmpty(details.sshSecretName)
    ensures r.action.CreateSecretThenAttach? ==>
      Some(r.action.sshPubKey) == details.sshPubKey && Some(r.action.secretName) == details.sshSecretName
      && r.action.namespace == namespace
  {
    if details == initial then
      SubmitOutcome(None, NoAction)
    else
      var newKeys :=
        if details.applyKeyToProject && AuthorizedKeyFor(keys, namespace) != details.sshSecretName
        then Some(WithAuthorizedKey(keys, namespace, details.sshSecretName))
        else None;
      SubmitOutcome(newKeys, ChooseAction(details, initial, namespace))
  }

  /** No VM action happens in every case the three guards leave out, whatever happened to the key map. */
  lemma NoActionOtherwise(details: SSHSecretDetails, initial: SSHSecretDetails,
                          keys: Option<AuthorizedKeys>, namespace: string)
    requires details != initial
    requires !(details.secretOption == NoSecret && initial.secretOption != NoSecret)
    requires !(details.secretOption == UseExisting && initial.sshSecretName != details.sshSecretName
               && !IsEmpty(details.sshSecretName))
    requires !(details.secretOption == AddNew && !IsEmpty(details.sshPubKey) && !IsEmpty(details.sshSecretName))
    ensures OnSubmit(details, initial, keys, namespace).action == NoAction
  {
  }

  /** The VM action depends on the details alone, never on the authorized-keys map. */
  lemma ActionIgnoresAuthorizedKeys(details: SSHSecretDetails, initial: SSHSecretDetails,
                                    keys1: Option<AuthorizedKeys>, keys2: Option<AuthorizedKeys>,
                                    namespace: string)
    ensures OnSubmit(details, initial, keys1, namespace).action == OnSubmit(details, initial, keys2, namespace).action
  {
  }

  /**
   * An unset secret name never creates an entry: where the namespace has no key,
   * `undefined !== undefined` is false, so the map stays as it is.
   */
  lemma UnsetNameAddsNoKey(details: SSHSecretDetails, initial: SSHSecretDetails,
                           keys: Option<AuthorizedKeys>, namespace: string)
    requires details.sshSecretName == None
    requires keys.None? || namespace !in keys.value
    ensures OnSubmit(details, initial, keys, namespace).newAuthorizedKeys == None
  {
  }

  /**
   * Applying a key to the project is settled by one submission: against the updated
   * map the same details update nothing, and a VM carrying that secret opens the
   * dialog with "apply key to project" already set.
   */
  lemma KeyUpdateIsSettled(details: SSHSecretDetails, initial: SSHSecretDetails,
                           keys: Option<AuthorizedKeys>, namespace: string)
    requires OnSubmit(details, initial, keys, namespace).newAuthorizedKeys.Some?
    ensures var updated := OnSubmit(details, initial, keys, namespace).newAuthorizedKeys;
      && OnSubmit(details, initial, updated, namespace).newAuthorizedKeys == None
      && (!IsEmpty(details.sshSecretName) ==> InitialApplyKeyToProject(details.sshSecretName, updated, namespace))
  {
  }
}
