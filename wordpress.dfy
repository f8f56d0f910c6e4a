/**
 * The host platform as the plugin sees it. Every WordPress call whose
 * behaviour belongs to the platform (nonces, capabilities, sanitising and
 * escaping) is a field of `Host`: an uninterpreted function the model never
 * looks inside. The per-product post-meta field `_pr_redirect_url` is a store
 * the plugin reads and writes.
 */
module WordPress {
  import opened Wrappers

  /** Host functions: `wp_verify_nonce`, `wp_create_nonce`, `current_user_can( 'edit_product', id )`,
      `sanitize_text_field`, `wp_unslash`, `esc_url`, `esc_url_raw`, `esc_attr`, `esc_html`. */
  datatype Host = Host(
    verifyNonce: (string, string) -> bool,
    createNonce: string -> string,
    canEditProduct: nat -> bool,
    sanitizeTextField: string -> string,
    unslash: string -> string,
    escUrl: string -> string,
    escUrlRaw: string -> string,
    escAttr: string -> string,
    escHtml: string -> string)

  /** `get_post_meta( $id, '_pr_redirect_url', true )`: the stored string, or "" when none is stored. */
  function StoredUrl(meta: map<nat, string>, postId: nat): string {
    if postId in meta then meta[postId] else ""
  }

  /** One `update_post_meta( $postId, '_pr_redirect_url', $url )` call, with the value the plugin passes. */
  datatype MetaWrite = MetaWrite(postId: nat, url: string)

  /** The meta store after an optional write. WordPress's `update_metadata`, which `update_post_meta`
      calls, runs `wp_unslash` on the value before storing it, so what is stored is the unslashed value. */
  function Applied(meta: map<nat, string>, write: Option<MetaWrite>, host: Host): (m: map<nat, string>)
    ensures write.None? ==> m == meta
    ensures write.Some? ==> StoredUrl(m, write.value.postId) == host.unslash(write.value.url)
    ensures forall id :: (write.None? || id != write.value.postId) ==> StoredUrl(m, id) == StoredUrl(meta, id)
  {
    match write
    case None => meta
    case Some(w) => meta[w.postId := host.unslash(w.url)]
  }

  /** The post-meta table, restricted to the plugin's one key. */
  class PostMetaStore {
    var redirectUrls: map<nat, string>

    constructor ()
      ensures redirectUrls == map[]
    {
      redirectUrls := map[];
    }

    /** `get_post_meta( $postId, '_pr_redirect_url', true )`. */
    function Get(postId: nat): string
      reads this
    {
      StoredUrl(redirectUrls, postId)
    }

    /** `update_post_meta`, when there is a write. */
    method Apply(write: Option<MetaWrite>, host: Host)
      modifies this
      ensures redirectUrls == Applied(old(redirectUrls), write, host)
    {
      if write.Some? {
        redirectUrls := redirectUrls[write.value.postId := host.unslash(write.value.url)];
      }
    }
  }
}
