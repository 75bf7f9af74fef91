/** Seller accounts (controller/shop.js): shop creation with its default
    avatar, e-mail verification, login, the profile update, removal of the
    withdraw method and the forgotten-password reset.  The credential
    rules are those of module Accounts, applied to the shop collection. */
module Shops {
  import opened Common
  import opened Entities
  import opened Store
  import opened Accounts

  /** The shop sign-up form; `avatar` is the file to upload, empty when
      none was sent. */
  datatype ShopRegistration = ShopRegistration(
    name: string, email: string, password: string, avatar: string,
    address: string, phoneNumber: string, zipCode: string)

  /** The profile fields `/update-seller-info` takes from the body. */
  datatype SellerInfo = SellerInfo(
    name: string, description: string, address: string, phoneNumber: string, zipCode: string)

  /** `Shop.findOne({ email })` finds a record. */
  predicate EmailTaken(shops: map<Id, Shop>, email: string)
  {
    exists id :: id in shops && shops[id].auth.email == email
  }

  /** No two shops share an e-mail address. */
  predicate EmailsUnique(shops: map<Id, Shop>)
  {
    forall a, b :: a in shops && b in shops && shops[a].auth.email == shops[b].auth.email ==> a == b
  }

  /** The duplicate check at creation keeps shop e-mails unique, and so
      does any change that leaves a shop's e-mail as it was. */
  lemma EmailsStayUnique(shops: map<Id, Shop>, id: Id, s: Shop)
    requires EmailsUnique(shops)
    requires if id in shops then s.auth.email == shops[id].auth.email else !EmailTaken(shops, s.auth.email)
    ensures EmailsUnique(shops[id := s])
  {
    var after := shops[id := s];
    forall a, b | a in after && b in after && after[a].auth.email == after[b].auth.email
      ensures a == b
    {
      if id in shops {
        assert after[a].auth.email == shops[a].auth.email;
        assert after[b].auth.email == shops[b].auth.email;
      }
    }
  }

  /** The avatar of a new shop: the uploaded file, or the stock image when
      none was sent. */
  function AvatarOf(r: ShopRegistration, upload: string -> Image): (avatar: Image)
    ensures r.avatar == "" ==> avatar == DEFAULT_IMAGE
    ensures r.avatar != "" ==> avatar == upload(r.avatar)
  {
    if r.avatar != "" then upload(r.avatar) else DEFAULT_IMAGE
  }

  /** A new shop: unverified, with its sign-up code, an empty balance and
      history and no withdraw method. */
  function NewShop(r: ShopRegistration, avatar: Image, signupCode: string): Shop
  {
    Shop(r.name, "", r.address, r.phoneNumber, r.zipCode, avatar,
         NewCredentials(r.email, r.password, signupCode), 0, [], None)
  }

  /** `/create-shop`: a body that fails validation or an e-mail already in
      use is refused with 400 and nothing is created. */
  method CreateShop(db: Db, r: ShopRegistration, bodyValid: bool, upload: string -> Image)
    returns (code: int, id: Id, signupCode: string)
    modifies db`shops
    ensures !bodyValid || EmailTaken(old(db.shops), r.email) ==> code == BAD_REQUEST && db.shops == old(db.shops)
    ensures bodyValid && !EmailTaken(old(db.shops), r.email) ==>
      && code == CREATED
      && id !in old(db.shops)
      && IsSignupCode(signupCode)
      && db.shops == old(db.shops)[id := NewShop(r, AvatarOf(r, upload), signupCode)]
  {
    code, id, signupCode := BAD_REQUEST, 0, "";
    if !bodyValid {
      return;
    }
    if exists other :: other in db.shops && db.shops[other].auth.email == r.email {
      return;
    }
    var avatar;
    if r.avatar != "" {
      avatar := upload(r.avatar);
    } else {
      avatar := DEFAULT_IMAGE;
    }
    signupCode := NewSignupCode();
    FreshIdExists(db.shops.Keys);
    id :| id !in db.shops;
    db.shops := db.shops[id := Shop(r.name, "", r.address, r.phoneNumber, r.zipCode, avatar,
                                     Credentials(r.email, r.password, false, Some(signupCode), None, None),
                                     0, [], None)];
    code := CREATED;
  }

  /** `/verify-email/:userId/:verificationCode` for a shop. */
  method VerifyShopEmail(db: Db, shopId: Id, verificationCode: string) returns (code: int)
    modifies db`shops
    ensures shopId !in old(db.shops) ==> code == NOT_FOUND && db.shops == old(db.shops)
    ensures shopId in old(db.shops) ==>
      var s := old(db.shops)[shopId];
      && code == VerifyStatus(s.auth, verificationCode)
      && db.shops == old(db.shops)[shopId := s.(auth := Verify(s.auth, verificationCode))]
  {
    if shopId !in db.shops {
      return NOT_FOUND;
    }
    var shop := db.shops[shopId];
    if shop.auth.isEmailVerified {
      return OK;
    }
    if shop.auth.emailVerificationCode != Some(verificationCode) {
      return BAD_REQUEST;
    }
    shop := shop.(auth := shop.auth.(isEmailVerified := true, emailVerificationCode := None));
    db.shops := db.shops[shopId := shop];
    code := OK;
  }

  /** The credentials of the shop a lookup returned, if any. */
  function AccountOf(shops: map<Id, Shop>, who: Option<Id>): Option<Credentials>
  {
    if who.Some? && who.value in shops then Some(shops[who.value].auth) else None
  }

  /** `/login-shop`: nothing is changed; the reply is the login gate's
      verdict on the shop `findOne` returned (201 on success). */
  method LoginShop(db: Db, email: string, password: string, bodyValid: bool,
                   checkPassword: (string, string) -> bool) returns (code: int, who: Option<Id>)
    ensures who.Some? <==> bodyValid && email != "" && password != "" && EmailTaken(db.shops, email)
    ensures who.Some? ==> who.value in db.shops && db.shops[who.value].auth.email == email
    ensures code == if !bodyValid then BAD_REQUEST
                    else LoginReply(LoginGate(email, password, AccountOf(db.shops, who), checkPassword), CREATED)
  {
    who := None;
    if !bodyValid {
      return BAD_REQUEST, who;
    }
    if email == "" || password == "" {
      return BAD_REQUEST, who;
    }
    if !exists id :: id in db.shops && db.shops[id].auth.email == email {
      return BAD_REQUEST, who;
    }
    var id :| id in db.shops && db.shops[id].auth.email == email;
    who := Some(id);
    var shop := db.shops[id];
    if !shop.auth.isEmailVerified {
      return BAD_REQUEST, who;
    }
    if !checkPassword(password, shop.auth.password) {
      return BAD_REQUEST, who;
    }
    code := CREATED;
  }

  // ---------------------------------------------------------------------
  // Profile
  // ---------------------------------------------------------------------

  /** The five assignments of `/update-seller-info`. */
  function WithSellerInfo(s: Shop, info: SellerInfo): Shop
  {
    s.(name := info.name, description := info.description, address := info.address,
       phoneNumber := info.phoneNumber, zipCode := info.zipCode)
  }

  /** The update sets exactly the five profile fields: everything else about
      the shop is kept, and the last update wins. */
  lemma SellerInfoSpec(s: Shop, info: SellerInfo, earlier: SellerInfo)
    ensures var t := WithSellerInfo(s, info);
      && SellerInfo(t.name, t.description, t.address, t.phoneNumber, t.zipCode) == info
      && t.avatar == s.avatar && t.auth == s.auth && t.availableBalance == s.availableBalance
      && t.transections == s.transections && t.withdrawMethod == s.withdrawMethod
    ensures WithSellerInfo(WithSellerInfo(s, earlier), info) == WithSellerInfo(s, info)
  {
  }

  /** `/update-seller-info` for the signed-in seller. */
  method UpdateSellerInfo(db: Db, sellerId: Id, info: SellerInfo, bodyValid: bool) returns (code: int)
    modifies db`shops
    ensures !bodyValid || sellerId !in old(db.shops) ==> code == BAD_REQUEST && db.shops == old(db.shops)
    ensures bodyValid && sellerId in old(db.shops) ==>
      code == CREATED && db.shops == old(db.shops)[sellerId := WithSellerInfo(old(db.shops)[sellerId], info)]
  {
    if !bodyValid || sellerId !in db.shops {
      return BAD_REQUEST;
    }
    var shop := db.shops[sellerId];
    shop := shop.(name := info.name);
    shop := shop.(description := info.description);
    shop := shop.(address := info.address);
    shop := shop.(phoneNumber := info.phoneNumber);
    shop := shop.(zipCode := info.zipCode);
    db.shops := db.shops[sellerId := shop];
    code := CREATED;
  }

  /** `/delete-withdraw-method/` for the signed-in seller. */
  method DeleteWithdrawMethod(db: Db, sellerId: Id) returns (code: int)
    modifies db`shops
    ensures sellerId !in old(db.shops) ==> code == BAD_REQUEST && db.shops == old(db.shops)
    ensures sellerId in old(db.shops) ==>
      code == CREATED && db.shops == old(db.shops)[sellerId := old(db.shops)[sellerId].(withdrawMethod := None)]
  {
    if sellerId !in db.shops {
      return BAD_REQUEST;
    }
    var seller := db.shops[sellerId];
    seller := seller.(withdrawMethod := None);
    db.shops := db.shops[sellerId := seller];
    code := CREATED;
  }

  // ---------------------------------------------------------------------
  // Passwords
  // ---------------------------------------------------------------------

  /** `/forgot-password` for a shop. */
  method ForgotShopPassword(db: Db, email: string, bodyValid: bool, now: int) returns (code: int, who: Option<Id>, token: string)
    modifies db`shops
    ensures who.Some? <==> bodyValid && EmailTaken(old(db.shops), email)
    ensures !bodyValid ==> code == BAD_REQUEST && db.shops == old(db.shops)
    ensures bodyValid && who.None? ==> code == NOT_FOUND && db.shops == old(db.shops)
    ensures who.Some? ==>
      && who.value in old(db.shops)
      && var s := old(db.shops)[who.value];
      && s.auth.email == email
      && code == OK && IsResetToken(token)
      && db.shops == old(db.shops)[who.value := s.(auth := IssueReset(s.auth, token, now))]
  {
    who, token := None, "";
    if !bodyValid {
      return BAD_REQUEST, who, token;
    }
    token := NewResetToken();
    var resetTokenExpiry := now + RESET_WINDOW_MS;
    if !exists id :: id in db.shops && db.shops[id].auth.email == email {
      return NOT_FOUND, who, token;
    }
    var id :| id in db.shops && db.shops[id].auth.email == email;
    who := Some(id);
    var shop := db.shops[id];
    shop := shop.(auth := shop.auth.(resetPasswordToken := Some(token), resetPasswordExpiry := Some(resetTokenExpiry)));
    db.shops := db.shops[id := shop];
    code := OK;
  }

  /** `/reset-password` (the form's POST) for a shop. */
  method ResetShopPassword(db: Db, token: string, newPassword: string, confirmPassword: string, now: int)
    returns (code: int, who: Option<Id>)
    modifies db`shops
    ensures who.Some? <==> exists id :: id in old(db.shops) && CanReset(old(db.shops)[id].auth, token, now)
    ensures who.None? ==> code == BAD_REQUEST && db.shops == old(db.shops)
    ensures who.Some? ==>
      && who.value in old(db.shops)
      && var s := old(db.shops)[who.value];
      && CanReset(s.auth, token, now)
      && if newPassword != confirmPassword then
           code == BAD_REQUEST && db.shops == old(db.shops)
         else
           code == OK && db.shops == old(db.shops)[who.value := s.(auth := ApplyReset(s.auth, newPassword))]
  {
    if !exists id :: id in db.shops && CanReset(db.shops[id].auth, token, now) {
      return BAD_REQUEST, None;
    }
    var id :| id in db.shops && CanReset(db.shops[id].auth, token, now);
    who := Some(id);
    if newPassword != confirmPassword {
      return BAD_REQUEST, who;
    }
    var shop := db.shops[id];
    shop := shop.(auth := shop.auth.(password := newPassword, resetPasswordToken := None, resetPasswordExpiry := None));
    db.shops := db.shops[id := shop];
    code := OK;
  }
}
