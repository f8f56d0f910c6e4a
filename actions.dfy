/** The action strings nonces are created and verified for. */
module Actions {
  import Php

  /** The metabox nonce action, `wp_nonce_field( 'pr_meta_box_nonce', ... )`. */
  const MetaBoxNonceAction: string := "pr_meta_box_nonce"
  /** The settings-form nonce action. */
  const SettingsNonceAction: string := "pr_save_settings"

  const UpdateActionPrefix: string := "pr_update_redirect_"

  /** `'pr_update_redirect_' . $product_id`: the action an inline-dropdown nonce is bound to. */
  function UpdateAction(productId: nat): string {
    UpdateActionPrefix + Php.DecimalString(productId)
  }

  /** Each product gets its own action string, so a nonce bound to one product's action is bound to no other's. */
  lemma UpdateActionInjective(a: nat, b: nat)
    requires UpdateAction(a) == UpdateAction(b)
    ensures a == b
  {
    var p := UpdateActionPrefix;
    assert Php.DecimalString(a) == UpdateAction(a)[|p|..];
    assert Php.DecimalString(b) == UpdateAction(b)[|p|..];
    Php.DecimalStringInjective(a, b);
  }

  /** No inline-dropdown action coincides with the metabox or the settings action. */
  lemma UpdateActionIsNotFixedAction(id: nat)
    ensures UpdateAction(id) != MetaBoxNonceAction
    ensures UpdateAction(id) != SettingsNonceAction
  {
    assert UpdateAction(id)[3] == 'u';
    assert MetaBoxNonceAction[3] == 'm';
    assert |SettingsNonceAction| < |UpdateAction(id)|;
  }
}
