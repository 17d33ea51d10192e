/**
 * The two straight-line S-box circuits over an evaluation engine: the
 * forward circuit of Boyar and Peralta, written as let-bindings, and the
 * inverse S-box circuit.  Both take the eight bits of a byte least
 * significant first, name them in reverse order (x0 or u0 is the most
 * significant bit) and return the result bits least significant first.
 */
module SboxCircuits {
  import opened Circuit

  /** The forward S-box circuit, gate by gate. */
  function SboxCircuit<V>(sk: Engine<V>, inp: seq<V>): (out: seq<V>)
    requires |inp| == 8
    ensures |out| == 8
  {
    var x0 := inp[7];
    var x1 := inp[6];
    var x2 := inp[5];
    var x3 := inp[4];
    var x4 := inp[3];
    var x5 := inp[2];
    var x6 := inp[1];
    var x7 := inp[0];
    var y14 := sk.xor(x3, x5);
    var y13 := sk.xor(x0, x6);
    var y9 := sk.xor(x0, x3);
    var y8 := sk.xor(x0, x5);
    var t0 := sk.xor(x1, x2);
    var y1 := sk.xor(t0, x7);
    var y4 := sk.xor(y1, x3);
    var y12 := sk.xor(y13, y14);
    var y2 := sk.xor(y1, x0);
    var y5 := sk.xor(y1, x6);
    var y3 := sk.xor(y5, y8);
    var t1 := sk.xor(x4, y12);
    var y15 := sk.xor(t1, x5);
    var y20 := sk.xor(t1, x1);
    var y6 := sk.xor(y15, x7);
    var y10 := sk.xor(y15, t0);
    var y11 := sk.xor(y20, y9);
    var y7 := sk.xor(x7, y11);
    var y17 := sk.xor(y10, y11);
    var y19 := sk.xor(y10, y8);
    var y16 := sk.xor(t0, y11);
    var y21 := sk.xor(y13, y16);
    var y18 := sk.xor(x0, y16);
    var t2 := sk.and(y12, y15);
    var t3 := sk.and(y3, y6);
    var t4 := sk.xor(t3, t2);
    var t5 := sk.and(y4, x7);
    var t6 := sk.xor(t5, t2);
    var t7 := sk.and(y13, y16);
    var t8 := sk.and(y5, y1);
    var t9 := sk.xor(t8, t7);
    var t10 := sk.and(y2, y7);
    var t11 := sk.xor(t10, t7);
    var t12 := sk.and(y9, y11);
    var t13 := sk.and(y14, y17);
    var t14 := sk.xor(t13, t12);
    var t15 := sk.and(y8, y10);
    var t16 := sk.xor(t15, t12);
    var t17 := sk.xor(t4, t14);
    var t18 := sk.xor(t6, t16);
    var t19 := sk.xor(t9, t14);
    var t20 := sk.xor(t11, t16);
    var t21 := sk.xor(t17, y20);
    var t22 := sk.xor(t18, y19);
    var t23 := sk.xor(t19, y21);
    var t24 := sk.xor(t20, y18);
    var t25 := sk.xor(t21, t22);
    var t26 := sk.and(t21, t23);
    var t27 := sk.xor(t24, t26);
    var t28 := sk.and(t25, t27);
    var t29 := sk.xor(t28, t22);
    var t30 := sk.xor(t23, t24);
    var t31 := sk.xor(t22, t26);
    var t32 := sk.and(t31, t30);
    var t33 := sk.xor(t32, t24);
    var t34 := sk.xor(t23, t33);
    var t35 := sk.xor(t27, t33);
    var t36 := sk.and(t24, t35);
    var t37 := sk.xor(t36, t34);
    var t38 := sk.xor(t27, t36);
    var t39 := sk.and(t29, t38);
    var t40 := sk.xor(t25, t39);
    var t41 := sk.xor(t40, t37);
    var t42 := sk.xor(t29, t33);
    var t43 := sk.xor(t29, t40);
    var t44 := sk.xor(t33, t37);
    var t45 := sk.xor(t42, t41);
    var z0 := sk.and(t44, y15);
    var z1 := sk.and(t37, y6);
    var z2 := sk.and(t33, x7);
    var z3 := sk.and(t43, y16);
    var z4 := sk.and(t40, y1);
    var z5 := sk.and(t29, y7);
    var z6 := sk.and(t42, y11);
    var z7 := sk.and(t45, y17);
    var z8 := sk.and(t41, y10);
    var z9 := sk.and(t44, y12);
    var z10 := sk.and(t37, y3);
    var z11 := sk.and(t33, y4);
    var z12 := sk.and(t43, y13);
    var z13 := sk.and(t40, y5);
    var z14 := sk.and(t29, y2);
    var z15 := sk.and(t42, y9);
    var z16 := sk.and(t45, y14);
    var z17 := sk.and(t41, y8);
    var t46 := sk.xor(z15, z16);
    var t47 := sk.xor(z10, z11);
    var t48 := sk.xor(z5, z13);
    var t49 := sk.xor(z9, z10);
    var t50 := sk.xor(z2, z12);
    var t51 := sk.xor(z2, z5);
    var t52 := sk.xor(z7, z8);
    var t53 := sk.xor(z0, z3);
    var t54 := sk.xor(z6, z7);
    var t55 := sk.xor(z16, z17);
    var t56 := sk.xor(z12, t48);
    var t57 := sk.xor(t50, t53);
    var t58 := sk.xor(z4, t46);
    var t59 := sk.xor(z3, t54);
    var t60 := sk.xor(t46, t57);
    var t61 := sk.xor(z14, t57);
    var t62 := sk.xor(t52, t58);
    var t63 := sk.xor(t49, t58);
    var t64 := sk.xor(z4, t59);
    var t65 := sk.xor(t61, t62);
    var t66 := sk.xor(z1, t63);
    var t67 := sk.xor(t64, t65);
    var s7 := sk.not(sk.xor(t48, t60));
    var s6 := sk.not(sk.xor(t56, t62));
    var s5 := sk.xor(t47, t65);
    var s4 := sk.xor(t51, t66);
    var s3 := sk.xor(t53, t66);
    var s2 := sk.not(sk.xor(t55, t67));
    var s1 := sk.not(sk.xor(t64, s3));
    var s0 := sk.xor(t59, t63);
    [s7, s6, s5, s4, s3, s2, s1, s0]
  }

  /** The inverse S-box circuit, gate by gate. */
  function InvSboxCircuit<V>(sk: Engine<V>, inp: seq<V>): (out: seq<V>)
    requires |inp| == 8
    ensures |out| == 8
  {
    var u0 := inp[7];
    var u1 := inp[6];
    var u2 := inp[5];
    var u3 := inp[4];
    var u4 := inp[3];
    var u5 := inp[2];
    var u6 := inp[1];
    var u7 := inp[0];
    var y0 := sk.xor(u0, u3);
    var y2 := sk.not(sk.xor(u1, u3));
    var y4 := sk.xor(u0, y2);
    var rtl0 := sk.xor(u6, u7);
    var y1 := sk.xor(y2, rtl0);
    var y7 := sk.not(sk.xor(u2, y1));
    var rtl1 := sk.xor(u3, u4);
    var y6 := sk.not(sk.xor(u7, rtl1));
    var y3 := sk.xor(y1, rtl1);
    var rtl2 := sk.not(sk.xor(u0, u2));
    var y5 := sk.xor(u5, rtl2);
    var sa1 := sk.xor(y0, y2);
    var sa0 := sk.xor(y1, y3);
    var sb1 := sk.xor(y4, y6);
    var sb0 := sk.xor(y5, y7);
    var ah := sk.xor(y0, y1);
    var al := sk.xor(y2, y3);
    var aa := sk.xor(sa0, sa1);
    var bh := sk.xor(y4, y5);
    var bl := sk.xor(y6, y7);
    var bb := sk.xor(sb0, sb1);
    var ab20 := sk.xor(sa0, sb0);
    var ab22 := sk.xor(al, bl);
    var ab23 := sk.xor(y3, y7);
    var ab21 := sk.xor(sa1, sb1);
    var abcd1 := sk.and(ah, bh);
    var rr1 := sk.and(y0, y4);
    var ph11 := sk.xor(ab20, abcd1);
    var t01 := sk.and(y1, y5);
    var ph01 := sk.xor(t01, abcd1);
    var abcd2 := sk.and(al, bl);
    var r1 := sk.and(y2, y6);
    var pl11 := sk.xor(ab22, abcd2);
    var r2 := sk.and(y3, y7);
    var pl01 := sk.xor(r2, abcd2);
    var r3 := sk.and(sa0, sb0);
    var vr1 := sk.and(aa, bb);
    var pr1 := sk.xor(vr1, r3);
    var wr1 := sk.and(sa1, sb1);
    var qr1 := sk.xor(wr1, r3);
    var ab0 := sk.xor(ph11, rr1);
    var ab1 := sk.xor(ph01, ab21);
    var ab2 := sk.xor(pl11, r1);
    var ab3 := sk.xor(pl01, qr1);
    var cp1 := sk.xor(ab0, pr1);
    var cp2 := sk.xor(ab1, qr1);
    var cp3 := sk.xor(ab2, pr1);
    var cp4 := sk.xor(ab3, ab23);
    var tinv1 := sk.xor(cp3, cp4);
    var tinv2 := sk.and(cp3, cp1);
    var tinv3 := sk.xor(cp2, tinv2);
    var tinv4 := sk.xor(cp1, cp2);
    var tinv5 := sk.xor(cp4, tinv2);
    var tinv6 := sk.and(tinv5, tinv4);
    var tinv7 := sk.and(tinv3, tinv1);
    var d2 := sk.xor(cp4, tinv7);
    var d0 := sk.xor(cp2, tinv6);
    var tinv8 := sk.and(cp1, cp4);
    var tinv9 := sk.and(tinv4, tinv8);
    var tinv10 := sk.xor(tinv4, tinv2);
    var d1 := sk.xor(tinv9, tinv10);
    var tinv11 := sk.and(cp2, cp3);
    var tinv12 := sk.and(tinv1, tinv11);
    var tinv13 := sk.xor(tinv1, tinv2);
    var d3 := sk.xor(tinv12, tinv13);
    var sd1 := sk.xor(d1, d3);
    var sd0 := sk.xor(d0, d2);
    var dl := sk.xor(d0, d1);
    var dh := sk.xor(d2, d3);
    var dd := sk.xor(sd0, sd1);
    var abcd3 := sk.and(dh, bh);
    var rr2 := sk.and(d3, y4);
    var t02 := sk.and(d2, y5);
    var abcd4 := sk.and(dl, bl);
    var r4 := sk.and(d1, y6);
    var r5 := sk.and(d0, y7);
    var r6 := sk.and(sd0, sb0);
    var vr2 := sk.and(dd, bb);
    var wr2 := sk.and(sd1, sb1);
    var abcd5 := sk.and(dh, ah);
    var r7 := sk.and(d3, y0);
    var r8 := sk.and(d2, y1);
    var abcd6 := sk.and(dl, al);
    var r9 := sk.and(d1, y2);
    var r10 := sk.and(d0, y3);
    var r11 := sk.and(sd0, sa0);
    var vr3 := sk.and(dd, aa);
    var wr3 := sk.and(sd1, sa1);
    var ph12 := sk.xor(rr2, abcd3);
    var ph02 := sk.xor(t02, abcd3);
    var pl12 := sk.xor(r4, abcd4);
    var pl02 := sk.xor(r5, abcd4);
    var pr2 := sk.xor(vr2, r6);
    var qr2 := sk.xor(wr2, r6);
    var p0 := sk.xor(ph12, pr2);
    var p1 := sk.xor(ph02, qr2);
    var p2 := sk.xor(pl12, pr2);
    var p3 := sk.xor(pl02, qr2);
    var ph13 := sk.xor(r7, abcd5);
    var ph03 := sk.xor(r8, abcd5);
    var pl13 := sk.xor(r9, abcd6);
    var pl03 := sk.xor(r10, abcd6);
    var pr3 := sk.xor(vr3, r11);
    var qr3 := sk.xor(wr3, r11);
    var p4 := sk.xor(ph13, pr3);
    var s7 := sk.xor(ph03, qr3);
    var p6 := sk.xor(pl13, pr3);
    var p7 := sk.xor(pl03, qr3);
    var s3 := sk.xor(p1, p6);
    var s6 := sk.xor(p2, p6);
    var s0 := sk.xor(p3, p6);
    var x11 := sk.xor(p0, p2);
    var s5 := sk.xor(s0, x11);
    var x13 := sk.xor(p4, p7);
    var x14 := sk.xor(x11, x13);
    var s1 := sk.xor(s3, x14);
    var x16 := sk.xor(p1, s7);
    var s2 := sk.xor(x14, x16);
    var x18 := sk.xor(p0, p4);
    var x19 := sk.xor(s5, x16);
    var s4 := sk.xor(x18, x19);
    [s7, s6, s5, s4, s3, s2, s1, s0]
  }

}
