/**
 * The plugin's two write paths for a product's redirect URL, the AJAX endpoint
 * `pr_ajax_update_redirect` and the metabox save `pr_save_meta_box_data`, and
 * the storefront decision `pr_redirect_product_page`. Each write path is a
 * decision function (which guards pass, what gets written) and a method that
 * applies that decision to the post-meta store.
 */
module Handlers {
  import opened Wrappers
  import opened WordPress
  import opened Actions
  import Php

  // The AJAX endpoint (action `pr_update_redirect`).

  /** The POST fields it reads; `productId` is the field's integer value (`intval`). */
  datatype AjaxRequest = AjaxRequest(nonce: Option<string>, productId: Option<int>, redirectUrl: Option<string>)

  datatype Message = MissingParameters | NonceVerificationFailed | InsufficientPermissions | RedirectUrlUpdated

  /** `wp_send_json_error` / `wp_send_json_success`; both end the request. */
  datatype AjaxReply = JsonError(message: Message) | JsonSuccess(message: Message)

  datatype AjaxOutcome = AjaxOutcome(reply: AjaxReply, write: Option<MetaWrite>)

  /** `isset( $_POST['nonce'], $_POST['product_id'], $_POST['redirect_url'] )`. */
  predicate AllPresent(req: AjaxRequest) {
    req.nonce.Some? && req.productId.Some? && req.redirectUrl.Some?
  }

  /** `absint( $_POST['product_id'] )`. */
  function Target(req: AjaxRequest): nat
    requires AllPresent(req)
  {
    Php.Absint(req.productId.value)
  }

  /** `wp_verify_nonce( sanitize_text_field( $nonce ), 'pr_update_redirect_' . $product_id )`. */
  predicate AjaxNonceValid(req: AjaxRequest, host: Host)
    requires AllPresent(req)
  {
    host.verifyNonce(host.sanitizeTextField(req.nonce.value), UpdateAction(Target(req)))
  }

  /** The guards in the order the handler checks them, and the write when all pass. */
  function AjaxDecide(req: AjaxRequest, host: Host): (r: AjaxOutcome)
    // exactly one reply; a write happens iff the reply is success
    ensures r.write.Some? <==> r.reply.JsonSuccess?
    ensures r.reply.JsonSuccess? <==>
            AllPresent(req) && AjaxNonceValid(req, host) && host.canEditProduct(Target(req))
    // the first failing guard names the error
    ensures !AllPresent(req) ==> r.reply == JsonError(MissingParameters)
    ensures AllPresent(req) && !AjaxNonceValid(req, host) ==> r.reply == JsonError(NonceVerificationFailed)
    ensures AllPresent(req) && AjaxNonceValid(req, host) && !host.canEditProduct(Target(req)) ==>
            r.reply == JsonError(InsufficientPermissions)
    // the write goes to the requested product, with the unslashed and sanitised URL
    ensures r.write.Some? ==>
              r.reply == JsonSuccess(RedirectUrlUpdated) &&
              r.write.value == MetaWrite(Target(req), host.sanitizeTextField(host.unslash(req.redirectUrl.value)))
  {
    if !AllPresent(req) then AjaxOutcome(JsonError(MissingParameters), None)
    else if !AjaxNonceValid(req, host) then AjaxOutcome(JsonError(NonceVerificationFailed), None)
    else if !host.canEditProduct(Target(req)) then AjaxOutcome(JsonError(InsufficientPermissions), None)
    else
      AjaxOutcome(JsonSuccess(RedirectUrlUpdated),
                  Some(MetaWrite(Target(req), host.sanitizeTextField(host.unslash(req.redirectUrl.value)))))
  }

  /** A host whose nonces are each valid for one action at most. */
  ghost predicate NoncesBound(host: Host) {
    forall n, a, b :: host.verifyNonce(n, a) && host.verifyNonce(n, b) ==> a == b
  }

  /** A nonce issued for one product's inline dropdown cannot update another product. */
  lemma NonceForOtherProductRejected(req: AjaxRequest, host: Host, issuedFor: nat)
    requires NoncesBound(host)
    requires AllPresent(req) && Target(req) != issuedFor
    requires host.verifyNonce(host.sanitizeTextField(req.nonce.value), UpdateAction(issuedFor))
    ensures AjaxDecide(req, host) == AjaxOutcome(JsonError(NonceVerificationFailed), None)
  {
    if AjaxNonceValid(req, host) {
      UpdateActionInjective(issuedFor, Target(req));
      assert false;
    }
  }

  /** Neither the metabox nonce nor the settings nonce can authorise an AJAX update. */
  lemma OtherFormNoncesRejected(req: AjaxRequest, host: Host)
    requires NoncesBound(host)
    requires AllPresent(req)
    requires host.verifyNonce(host.sanitizeTextField(req.nonce.value), MetaBoxNonceAction) ||
             host.verifyNonce(host.sanitizeTextField(req.nonce.value), SettingsNonceAction)
    ensures AjaxDecide(req, host).reply == JsonError(NonceVerificationFailed)
  {
    UpdateActionIsNotFixedAction(Target(req));
  }

  /** `pr_ajax_update_redirect`, applied to the post-meta store. */
  method AjaxUpdateRedirect(store: PostMetaStore, req: AjaxRequest, host: Host) returns (reply: AjaxReply)
    modifies store
    ensures reply == AjaxDecide(req, host).reply
    ensures store.redirectUrls == Applied(old(store.redirectUrls), AjaxDecide(req, host).write, host)
  {
    if !(req.nonce.Some? && req.productId.Some? && req.redirectUrl.Some?) {
      return JsonError(MissingParameters);
    }
    var productId := Php.Absint(req.productId.value);
    var redirectUrl := host.sanitizeTextField(host.unslash(req.redirectUrl.value));
    var nonce := host.sanitizeTextField(req.nonce.value);
    if !host.verifyNonce(nonce, UpdateAction(productId)) {
      return JsonError(NonceVerificationFailed);
    }
    if !host.canEditProduct(productId) {
      return JsonError(InsufficientPermissions);
    }
    store.Apply(Some(MetaWrite(productId, redirectUrl)), host);
    reply := JsonSuccess(RedirectUrlUpdated);
  }

  // The metabox save (`save_post_product`).

  /** The POST fields it reads: `pr_meta_box_nonce_field` and `pr_redirect_url`. */
  datatype MetaBoxPost = MetaBoxPost(nonceField: Option<string>, redirectUrl: Option<string>)

  /** The write `pr_save_meta_box_data( $post_id )` makes, if any; `doingAutosave` is `DOING_AUTOSAVE`. */
  function MetaBoxDecide(post: MetaBoxPost, postId: nat, doingAutosave: bool, host: Host): (w: Option<MetaWrite>)
    ensures w.Some? <==>
            post.nonceField.Some? && host.verifyNonce(post.nonceField.value, MetaBoxNonceAction) &&
            !doingAutosave && host.canEditProduct(postId) && post.redirectUrl.Some?
    ensures w.Some? ==> w.value == MetaWrite(postId, host.sanitizeTextField(post.redirectUrl.value))
  {
    if post.nonceField.None? || !host.verifyNonce(post.nonceField.value, MetaBoxNonceAction) then None
    else if doingAutosave then None
    else if !host.canEditProduct(postId) then None
    else if post.redirectUrl.Some? then Some(MetaWrite(postId, host.sanitizeTextField(post.redirectUrl.value)))
    else None
  }

  /** `pr_save_meta_box_data`, applied to the post-meta store. */
  method SaveMetaBoxData(store: PostMetaStore, post: MetaBoxPost, postId: nat, doingAutosave: bool, host: Host)
    modifies store
    ensures store.redirectUrls == Applied(old(store.redirectUrls), MetaBoxDecide(post, postId, doingAutosave, host), host)
  {
    if post.nonceField.None? || !host.verifyNonce(post.nonceField.value, MetaBoxNonceAction) {
      return;
    }
    if doingAutosave {
      return;
    }
    if !host.canEditProduct(postId) {
      return;
    }
    if post.redirectUrl.Some? {
      var redirectUrl := host.sanitizeTextField(post.redirectUrl.value);
      store.Apply(Some(MetaWrite(postId, redirectUrl)), host);
    }
  }

  // The storefront (`template_redirect`).

  datatype RedirectDecision = NoRedirect | RedirectTo(location: string)

  /** `pr_redirect_product_page`: on a single-product page whose stored URL is not `empty()`,
      redirect to the escaped URL. `RedirectTo(loc)` stands for `wp_redirect( loc )` followed by
      `exit`: the request ends either way, but when `esc_url` gives "" (say, for a `javascript:`
      URL) `wp_redirect` sends no Location header, so `RedirectTo("")` is not an HTTP redirect. */
  function RedirectProductPage(isSingularProduct: bool, postId: nat, meta: map<nat, string>, host: Host): (d: RedirectDecision)
    ensures d.RedirectTo? <==> isSingularProduct && !Php.EmptyString(StoredUrl(meta, postId))
    ensures d.RedirectTo? ==> d.location == host.escUrl(StoredUrl(meta, postId))
  {
    if isSingularProduct && !Php.EmptyString(StoredUrl(meta, postId)) then RedirectTo(host.escUrl(StoredUrl(meta, postId)))
    else NoRedirect
  }

  /** A product with nothing stored is never redirected. */
  lemma NeverRedirectsWithoutRecord(isSingularProduct: bool, postId: nat, meta: map<nat, string>, host: Host)
    requires postId !in meta
    ensures RedirectProductPage(isSingularProduct, postId, meta, host) == NoRedirect
  {
  }

  /** Saving through the metabox and then visiting the product redirects to the stored URL (the
      sanitised value, unslashed by `update_post_meta`), unless that is `empty()`. */
  lemma SavedRedirectFires(meta: map<nat, string>, post: MetaBoxPost, postId: nat, host: Host)
    requires MetaBoxDecide(post, postId, false, host).Some?
    ensures var saved := host.unslash(host.sanitizeTextField(post.redirectUrl.value));
            RedirectProductPage(true, postId, Applied(meta, MetaBoxDecide(post, postId, false, host), host), host) ==
            if Php.EmptyString(saved) then NoRedirect else RedirectTo(host.escUrl(saved))
  {
  }

  /** An AJAX update of one product changes no other product's redirect. */
  lemma AjaxUpdateLeavesOthers(meta: map<nat, string>, req: AjaxRequest, host: Host, other: nat, isSingularProduct: bool)
    requires AllPresent(req) && other != Target(req)
    ensures RedirectProductPage(isSingularProduct, other, Applied(meta, AjaxDecide(req, host).write, host), host) ==
            RedirectProductPage(isSingularProduct, other, meta, host)
  {
  }

  /** `pr_redirect_product_page` reading the post-meta store. */
  method RedirectOnVisit(store: PostMetaStore, isSingularProduct: bool, postId: nat, host: Host)
    returns (d: RedirectDecision)
    ensures d == RedirectProductPage(isSingularProduct, postId, store.redirectUrls, host)
  {
    d := NoRedirect;
    if isSingularProduct {
      var redirectUrl := store.Get(postId);
      if !Php.EmptyString(redirectUrl) {
        d := RedirectTo(host.escUrl(redirectUrl));
      }
    }
  }
}
